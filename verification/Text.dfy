/** Blanks around text, as `strings.TrimSpace` and its users see them. */
module Text {
  predicate Space(c: char) {
    c in {'\t', '\n', '\r', ' ', '\U{000B}', '\U{000C}', '\U{0085}', '\U{00A0}', '\U{1680}', '\U{2028}',
          '\U{2029}', '\U{202F}', '\U{205F}', '\U{3000}'} || '\U{2000}' <= c <= '\U{200A}'
  }

  function TrimLeft(s: string): (t: string)
    ensures t == "" || !Space(t[0])
  {
    if s != "" && Space(s[0]) then TrimLeft(s[1..]) else s
  }

  function TrimRight(s: string): (t: string)
    ensures t <= s
    ensures t == "" || !Space(t[|t| - 1])
  {
    if s != "" && Space(s[|s| - 1]) then TrimRight(s[..|s| - 1]) else s
  }

  /** `strings.TrimSpace`. */
  function Trim(s: string): string {
    TrimRight(TrimLeft(s))
  }

  predicate Blank(s: string) {
    Trim(s) == ""
  }

  lemma TrimTwice(s: string)
    ensures Trim(Trim(s)) == Trim(s)
  {
    var left := TrimLeft(s);
    if Trim(s) != "" {
      assert Trim(s)[0] == left[0];
    }
  }

  lemma {:induction false} LeftMeaning(s: string) returns (n: nat)
    ensures n <= |s| && TrimLeft(s) == s[n..] && forall i | 0 <= i < n :: Space(s[i])
  {
    n := 0;
    if s != "" && Space(s[0]) {
      n := LeftMeaning(s[1..]);
      n := n + 1;
      assert forall i | 0 < i < |s| :: s[i] == s[1..][i - 1];
    }
  }

  lemma {:induction false} RightMeaning(s: string)
    ensures TrimRight(s) <= s && forall i | |TrimRight(s)| <= i < |s| :: Space(s[i])
  {
    if s != "" && Space(s[|s| - 1]) {
      RightMeaning(s[..|s| - 1]);
    }
  }

  /** The text without the blanks at its ends, and nothing else missing. */
  lemma TrimMeaning(s: string) returns (start: nat, end: nat)
    ensures start <= end <= |s| && Trim(s) == s[start..end]
    ensures forall i | 0 <= i < start || end <= i < |s| :: Space(s[i])
    ensures Trim(s) != "" ==> !Space(s[start]) && !Space(s[end - 1])
  {
    start := LeftMeaning(s);
    RightMeaning(TrimLeft(s));
    end := start + |Trim(s)|;
    assert Trim(s) == TrimLeft(s)[..|Trim(s)|];
    assert forall i | end <= i < |s| :: s[i] == TrimLeft(s)[i - start];
    TrimEnds(s);
  }

  lemma TrimEnds(s: string)
    ensures Trim(s) != "" ==> !Space(Trim(s)[0]) && !Space(Trim(s)[|Trim(s)| - 1])
  {
    if Trim(s) != "" {
      assert Trim(s)[0] == TrimLeft(s)[0];
    }
  }
}
