/** Runtime metering: whole seconds of confirmed audio inside a period, summed
    over an organization's sessions by one query. */
module Metering {
  import opened Sql
  import opened Sessions

  // -------------------------------------------------------------------- one row

  /** CEIL of microseconds to seconds. */
  function CeilSeconds(us: int): int {
    -((-us) / SECOND)
  }

  /** COALESCE(session.media_ended_at, calls.ended_at, CURRENT_TIMESTAMP). */
  function AudioEnd(x: Session, c: Call, now: int): int {
    Coalesce(x.mediaEndedAt, Coalesce(c.endedAt, now))
  }

  /** Seconds of [start, end) inside [low, high), any part of one counting whole. */
  function Overlap(start: int, end: int, low: int, high: int): int {
    Max(0, CeilSeconds(Min(end, high) - Max(start, low)))
  }

  /** The whole seconds cover the audio inside the period, by less than one more. */
  lemma OverlapRoundsUp(start: int, end: int, low: int, high: int)
    ensures var exact := Min(end, high) - Max(start, low);
            if exact <= 0 then Overlap(start, end, low, high) == 0
            else Overlap(start, end, low, high) * SECOND - SECOND < exact <= Overlap(start, end, low, high) * SECOND
  {
  }

  function Seconds(x: Session, c: Call, low: int, high: int, now: int): int {
    if x.mediaStartedAt.None? then 0 else Overlap(x.mediaStartedAt.value, AudioEnd(x, c, now), low, high)
  }

  /** The WHERE conditions on a session's audio. */
  predicate Selected(x: Session, low: int, high: int) {
    && IsNotNull(x.mediaStartedAt).Holds()
    && Lt(x.mediaStartedAt, Some(high)).Holds()
    && Or(IsNull(x.mediaEndedAt), Lt(Some(low), x.mediaEndedAt)).Holds()
  }

  // ------------------------------------------------------------------------ sums

  ghost function Sum(m: map<nat, int>): int
    decreases |m|
  {
    if m == map[] then 0
    else
      var k :| k in m;
      assert |m - {k}| < |m| by { Smaller(m, k); }
      m[k] + Sum(m - {k})
  }

  lemma Smaller(m: map<nat, int>, k: nat)
    requires k in m
    ensures |m - {k}| < |m|
  {
    assert (m - {k}).Keys == m.Keys - {k};
    assert |m| == |m.Keys| && |m - {k}| == |(m - {k}).Keys|;
  }

  /** Any entry may be taken out first. */
  lemma {:induction false} SumTakes(m: map<nat, int>, k: nat)
    requires k in m
    ensures Sum(m) == m[k] + Sum(m - {k})
    decreases |m|
  {
    var j :| j in m && Sum(m) == m[j] + Sum(m - {j});
    if j != k {
      Smaller(m, j);
      Smaller(m, k);
      SumTakes(m - {j}, k);
      SumTakes(m - {k}, j);
      assert m - {j} - {k} == m - {k} - {j};
    }
  }

  lemma {:induction false} SumOrder(a: map<nat, int>, b: map<nat, int>)
    requires a.Keys == b.Keys && forall k <- a :: a[k] <= b[k]
    ensures Sum(a) <= Sum(b)
    decreases |a|
  {
    if a != map[] {
      var k :| k in a;
      Smaller(a, k);
      SumTakes(a, k);
      SumTakes(b, k);
      assert (a - {k}).Keys == a.Keys - {k} == b.Keys - {k} == (b - {k}).Keys;
      SumOrder(a - {k}, b - {k});
    } else {
      assert b.Keys == {};
      assert b == map[];
    }
  }

  lemma {:induction false} SumAdd(a: map<nat, int>, b: map<nat, int>, both: map<nat, int>)
    requires a.Keys == b.Keys == both.Keys && forall k <- a :: both[k] == a[k] + b[k]
    ensures Sum(both) == Sum(a) + Sum(b)
    decreases |a|
  {
    if a != map[] {
      var k :| k in a;
      Smaller(a, k);
      SumTakes(a, k);
      SumTakes(b, k);
      SumTakes(both, k);
      assert (a - {k}).Keys == a.Keys - {k} == (b - {k}).Keys == (both - {k}).Keys;
      SumAdd(a - {k}, b - {k}, both - {k});
    } else {
      assert b.Keys == {} && both.Keys == {};
      assert b == map[] && both == map[];
    }
  }

  /** Rows that contribute nothing may be left out. */
  lemma {:induction false} SumSkipsZeros(all: map<nat, int>, part: map<nat, int>)
    requires part.Keys <= all.Keys && forall k <- all :: all[k] == if k in part then part[k] else 0
    ensures Sum(part) == Sum(all)
    decreases |all|
  {
    if all == map[] {
      assert part.Keys == {};
      assert part == map[];
    } else {
      var k :| k in all;
      Smaller(all, k);
      SumTakes(all, k);
      if k in part {
        SumTakes(part, k);
        SumSkipsZeros(all - {k}, part - {k});
      } else {
        SumSkipsZeros(all - {k}, part);
      }
    }
  }

  lemma {:induction false} SumCounts(m: map<nat, int>, ones: set<nat>)
    requires ones <= m.Keys && forall k <- m :: m[k] == if k in ones then 1 else 0
    ensures Sum(m) == |ones|
    decreases |m|
  {
    if m == map[] {
      assert ones == {};
    } else {
      var k :| k in m;
      Smaller(m, k);
      SumTakes(m, k);
      SumCounts(m - {k}, ones - {k});
    }
  }

  // ----------------------------------------------------------------------- usage

  /** Sessions of the organization, joined with their calls. */
  predicate Joined(s: State, organization: nat, id: nat) {
    && id in s.sessions && s.sessions[id].organization == organization
    && s.sessions[id].call in s.calls && s.calls[s.sessions[id].call].organization == organization
  }

  function SecondsOf(s: State, organization: nat, id: nat, low: int, high: int): int
    requires Joined(s, organization, id)
  {
    Seconds(s.sessions[id], s.calls[s.sessions[id].call], low, high, s.now)
  }

  /** `GetOrganizationRuntimeUsedSeconds`. */
  ghost function UsedSeconds(s: State, organization: nat, low: int, high: int): int {
    Sum(map id | id in s.sessions && Joined(s, organization, id) && Selected(s.sessions[id], low, high)
          :: SecondsOf(s, organization, id, low, high))
  }

  /** The same without the WHERE conditions on the audio. */
  ghost function PlainSeconds(s: State, organization: nat, low: int, high: int): map<nat, int> {
    map id | id in s.sessions && Joined(s, organization, id) :: SecondsOf(s, organization, id, low, high)
  }

  lemma UnselectedIsZero(x: Session, c: Call, low: int, high: int, now: int)
    ensures !Selected(x, low, high) ==> Seconds(x, c, low, high, now) == 0
  {
  }

  /** The conditions only save work: they never change the sum. */
  lemma FilterChangesNothing(s: State, organization: nat, low: int, high: int)
    ensures UsedSeconds(s, organization, low, high) == Sum(PlainSeconds(s, organization, low, high))
  {
    var all := PlainSeconds(s, organization, low, high);
    var part := map id | id in s.sessions && Joined(s, organization, id) && Selected(s.sessions[id], low, high)
      :: SecondsOf(s, organization, id, low, high);
    forall id | id in all ensures all[id] == if id in part then part[id] else 0 {
      UnselectedIsZero(s.sessions[id], s.calls[s.sessions[id].call], low, high, s.now);
    }
    SumSkipsZeros(all, part);
  }

  // -------------------------------------------------------------- reconciliation

  lemma ReconciledMetersTheSame(x: Session, c: Call, low: int, high: int, now: int)
    requires Ordered(x) && x.status.Active? && c.endedAt.Some?
    ensures Seconds(Reconciled(x, c), c, low, high, now) == Seconds(x, c, low, high, now)
  {
  }

  lemma ReconcileMetersTheSame(s: State, organization: nat, id: nat, low: int, high: int)
    requires Inv(s) && Joined(s, organization, id)
    ensures Joined(NextReconcile(s), organization, id)
    ensures SecondsOf(NextReconcile(s), organization, id, low, high) == SecondsOf(s, organization, id, low, high)
  {
    if Orphan(s, s.sessions[id]) {
      ReconciledMetersTheSame(s.sessions[id], s.calls[s.sessions[id].call], low, high, s.now);
    }
  }

  /** Closing the sessions of ended calls leaves the used seconds as they are, for
      every organization and period, also where a call ended before its audio began. */
  lemma ReconcileLeavesUsage(s: State, organization: nat, low: int, high: int)
    requires Inv(s)
    ensures UsedSeconds(NextReconcile(s), organization, low, high) == UsedSeconds(s, organization, low, high)
  {
    var t := NextReconcile(s);
    FilterChangesNothing(s, organization, low, high);
    FilterChangesNothing(t, organization, low, high);
    var a, b := PlainSeconds(s, organization, low, high), PlainSeconds(t, organization, low, high);
    assert a.Keys == b.Keys;
    forall id | id in a ensures b[id] == a[id] {
      ReconcileMetersTheSame(s, organization, id, low, high);
    }
    assert a == b;
  }

  /** The end of the audio, once a session is closed as of an instant. */
  function ClosedAt(mediaStart: int, at: int): int {
    Max(mediaStart, at)
  }

  /** Completing a session as of an instant meters the same as closing it with its
      call's end. */
  predicate FinishAgrees(x: Session, end: int, at: int) {
    x.mediaStartedAt.Some? ==> ClosedAt(x.mediaStartedAt.value, at) == ClosedAt(x.mediaStartedAt.value, end)
  }

  /** Completing a session while its call goes on freezes its meter at what it shows
      at that instant. Once the call has ended, the meter of the active session, which
      is also that of the reconciled one, stays what it is, for every period, if and
      only if the instant and the call's end are the same for its audio. */
  lemma FinishFreezesMeter(x: Session, c: Call, status: Status, summary: Summary, at: int, now: int)
    requires Ordered(x) && x.status.Active?
    ensures c.endedAt.None? ==>
              forall low, high ::
                Seconds(Finished(x, status, summary, at), c, low, high, now) == Seconds(x, c, low, high, at)
    ensures c.endedAt.Some? ==>
              ((forall low, high ::
                  Seconds(Finished(x, status, summary, at), c, low, high, now) == Seconds(x, c, low, high, now))
               <==> FinishAgrees(x, c.endedAt.value, at))
    ensures c.endedAt.Some? ==>
              forall low, high ::
                Seconds(Reconciled(x, c), c, low, high, now) == Seconds(x, c, low, high, now)
  {
    if c.endedAt.Some? && !FinishAgrees(x, c.endedAt.value, at) {
      var start := x.mediaStartedAt.value;
      var a, b := ClosedAt(start, at), ClosedAt(start, c.endedAt.value);
      OverlapDiffers(start, a, b);
      assert Seconds(Finished(x, status, summary, at), c, Min(a, b), Max(a, b), now)
             == Overlap(start, a, Min(a, b), Max(a, b));
      assert Seconds(x, c, Min(a, b), Max(a, b), now) == Overlap(start, b, Min(a, b), Max(a, b));
    }
  }

  /** Two ends of the same audio show in the period between them. */
  lemma OverlapDiffers(start: int, a: int, b: int)
    requires start <= a && start <= b && a != b
    ensures Overlap(start, a, Min(a, b), Max(a, b)) != Overlap(start, b, Min(a, b), Max(a, b))
  {
  }

  /** The meter never runs backwards. */
  lemma UsageGrows(s: State, delta: nat, organization: nat, low: int, high: int)
    ensures UsedSeconds(s, organization, low, high) <= UsedSeconds(Next(s, Tick(delta)), organization, low, high)
  {
    var t := Next(s, Tick(delta));
    FilterChangesNothing(s, organization, low, high);
    FilterChangesNothing(t, organization, low, high);
    var a, b := PlainSeconds(s, organization, low, high), PlainSeconds(t, organization, low, high);
    forall id | id in a ensures id in b && a[id] <= b[id] {
      CeilGrows(s.sessions[id], s.calls[s.sessions[id].call], low, high, s.now, t.now);
    }
    assert a.Keys == b.Keys;
    SumOrder(a, b);
  }

  lemma CeilMonotone(a: int, b: int)
    requires a <= b
    ensures CeilSeconds(a) <= CeilSeconds(b)
  {
  }

  lemma CeilGrows(x: Session, c: Call, low: int, high: int, now: int, later: int)
    requires now <= later
    ensures Seconds(x, c, low, high, now) <= Seconds(x, c, low, high, later)
  {
    if x.mediaStartedAt.Some? {
      var from := Max(x.mediaStartedAt.value, low);
      CeilMonotone(Min(AudioEnd(x, c, now), high) - from, Min(AudioEnd(x, c, later), high) - from);
    }
  }

  // --------------------------------------------------------------- split periods

  /** The audio runs across an instant. */
  predicate Straddles(x: Session, c: Call, at: int, now: int) {
    x.mediaStartedAt.Some? && x.mediaStartedAt.value < at < AudioEnd(x, c, now)
  }

  lemma CeilOfSum(p: int, q: int)
    ensures CeilSeconds(p + q) <= CeilSeconds(p) + CeilSeconds(q) <= CeilSeconds(p + q) + 1
  {
  }

  /** Splitting a period counts a session's cut second twice, at most. */
  lemma SplitSession(x: Session, c: Call, a: int, b: int, z: int, now: int)
    requires a <= b <= z
    ensures Seconds(x, c, a, z, now) <= Seconds(x, c, a, b, now) + Seconds(x, c, b, z, now)
    ensures Seconds(x, c, a, b, now) + Seconds(x, c, b, z, now)
            <= Seconds(x, c, a, z, now) + if Straddles(x, c, b, now) then 1 else 0
  {
    if x.mediaStartedAt.Some? {
      var start, end := x.mediaStartedAt.value, AudioEnd(x, c, now);
      if start < b < end {
        CeilOfSum(b - Max(start, a), Min(end, z) - b);
      }
    }
  }

  function Straddling(s: State, organization: nat, at: int): set<nat> {
    set id | id in s.sessions && Joined(s, organization, id)
      && Straddles(s.sessions[id], s.calls[s.sessions[id].call], at, s.now)
  }

  lemma SumPairs(first: map<nat, int>, second: map<nat, int>, whole: map<nat, int>)
    requires first.Keys == second.Keys == whole.Keys
    requires forall id <- whole :: whole[id] <= first[id] + second[id]
    ensures Sum(whole) <= Sum(first) + Sum(second)
  {
    var both := map id | id in whole :: first[id] + second[id];
    assert both.Keys == whole.Keys;
    SumAdd(first, second, both);
    SumOrder(whole, both);
  }

  lemma SumMarked(whole: map<nat, int>, cut: set<nat>, marked: map<nat, int>)
    requires cut <= whole.Keys == marked.Keys
    requires forall id <- whole :: marked[id] == whole[id] + if id in cut then 1 else 0
    ensures Sum(marked) == Sum(whole) + |cut|
  {
    var ones := map id | id in whole :: if id in cut then 1 else 0;
    assert ones.Keys == whole.Keys;
    SumAdd(whole, ones, marked);
    SumCounts(ones, cut);
  }

  lemma SplitSums(first: map<nat, int>, second: map<nat, int>, whole: map<nat, int>, cut: set<nat>)
    requires first.Keys == second.Keys == whole.Keys && cut <= whole.Keys
    requires forall id <- whole ::
               whole[id] <= first[id] + second[id] <= whole[id] + if id in cut then 1 else 0
    ensures Sum(whole) <= Sum(first) + Sum(second) <= Sum(whole) + |cut|
  {
    SumPairs(first, second, whole);
    var marked := map id | id in whole :: whole[id] + if id in cut then 1 else 0;
    SumMarked(whole, cut, marked);
    var both := map id | id in whole :: first[id] + second[id];
    assert both.Keys == whole.Keys == marked.Keys;
    SumAdd(first, second, both);
    SumOrder(both, marked);
  }

  /** Adjacent periods add up to the whole, give or take one second for each
      session whose audio runs across the boundary. */
  lemma SplitPeriods(s: State, organization: nat, a: int, b: int, c: int)
    requires a <= b <= c
    ensures UsedSeconds(s, organization, a, c)
            <= UsedSeconds(s, organization, a, b) + UsedSeconds(s, organization, b, c)
            <= UsedSeconds(s, organization, a, c) + |Straddling(s, organization, b)|
  {
    FilterChangesNothing(s, organization, a, b);
    FilterChangesNothing(s, organization, b, c);
    FilterChangesNothing(s, organization, a, c);
    var first, second := PlainSeconds(s, organization, a, b), PlainSeconds(s, organization, b, c);
    var whole := PlainSeconds(s, organization, a, c);
    assert first.Keys == second.Keys == whole.Keys;
    forall id | id in whole
      ensures whole[id] <= first[id] + second[id]
              <= whole[id] + if id in Straddling(s, organization, b) then 1 else 0
    {
      SplitSession(s.sessions[id], s.calls[s.sessions[id].call], a, b, c, s.now);
    }
    SplitSums(first, second, whole, Straddling(s, organization, b));
  }
}
