/** JSON as text, as PostgreSQL's `jsonb`, and as Go's `any`, with the argument
    comparison `sameJSON`. `jsonb` keeps numbers exactly, Go decodes them to floats. */
module Json {
  import opened Sql
  import opened Binary64

  /** A document: members in the order written, names possibly repeated. */
  datatype Document =
    | DNull
    | DBool(b: bool)
    | DNumber(n: Decimal)
    | DString(s: string)
    | DArray(items: seq<Document>)
    | DObject(members: seq<Member>)

  datatype Member = Member(name: string, document: Document)

  /** A decoded value: members unordered, the last of equal names kept. */
  datatype Value<N> =
    | Null
    | Boolean(b: bool)
    | Number(n: N)
    | Text(s: string)
    | Array(items: seq<Value<N>>)
    | Object(members: map<string, Value<N>>)

  /** Numbers by their exact value. */
  type Jsonb = Value<real>

  // -------------------------------------------------------------------- decoding

  /** The value with its numbers as written. */
  function Literals(d: Document): Value<Decimal>
    decreases d, 1
  {
    match d
    case DNull => Null
    case DBool(b) => Boolean(b)
    case DNumber(n) => Number(n)
    case DString(s) => Text(s)
    case DArray(items) => Array(LiteralItems(items))
    case DObject(members) => Object(LiteralMembers(members))
  }

  function LiteralItems(items: seq<Document>): (r: seq<Value<Decimal>>)
    ensures |r| == |items|
    decreases items, 0
  {
    if items == [] then [] else [Literals(items[0])] + LiteralItems(items[1..])
  }

  function LiteralMembers(members: seq<Member>): map<string, Value<Decimal>>
    decreases members, 0
  {
    if members == [] then map[]
    else
      var n := |members| - 1;
      assert members[n] in members && members[..n] < members;
      LiteralMembers(members[..n])[members[n].name := Literals(members[n].document)]
  }

  /** Every number replaced. */
  function MapNumbers<N, M>(v: Value<N>, number: N -> M): Value<M> {
    match v
    case Null => Null
    case Boolean(b) => Boolean(b)
    case Number(n) => Number(number(n))
    case Text(s) => Text(s)
    case Array(items) => Array(seq(|items|, i requires 0 <= i < |items| => MapNumbers(items[i], number)))
    case Object(members) => Object(map k | k in members :: MapNumbers(members[k], number))
  }

  /** What `jsonb` stores for a document. */
  function Stored(d: Document): Jsonb {
    MapNumbers(Literals(d), Exact)
  }

  /** No number in the text overflows, not even one a later member hides. */
  predicate Decodes(d: Document) {
    match d
    case DNumber(n) => LiteralFloat(n).Some?
    case DArray(items) => forall x <- items :: Decodes(x)
    case DObject(members) => forall m <- members :: Decodes(m.document)
    case _ => true
  }

  /** `sameJSON`: both sides decoded to `any` and compared as floats, sign of zero
      included; an error on either side makes them different. */
  predicate SameJson(stored: Jsonb, request: Document) {
    Decodes(request) && MapNumbers(stored, ExactFloat) == MapNumbers(Literals(request), LiteralFloat)
  }

  // --------------------------------------------------------- numbers inside values

  predicate HasNumber<N(==)>(v: Value<N>) {
    match v
    case Number(_) => true
    case Array(items) => exists x <- items :: HasNumber(x)
    case Object(members) => exists k <- members :: HasNumber(members[k])
    case _ => false
  }

  predicate SafeIntegers(v: Jsonb) {
    match v
    case Number(r) => SafeInteger(r)
    case Array(items) => forall x <- items :: SafeIntegers(x)
    case Object(members) => forall k <- members :: SafeIntegers(members[k])
    case _ => true
  }

  predicate HasMinusZero(v: Value<Decimal>) {
    match v
    case Number(n) => MinusZero(n)
    case Array(items) => exists x <- items :: HasMinusZero(x)
    case Object(members) => exists k <- members :: HasMinusZero(members[k])
    case _ => false
  }

  // -------------------------------------------------------------- the same request

  /** The floats of the stored value are those of the text, negative zeros apart. */
  lemma {:induction false} StoredFloats(v: Value<Decimal>)
    ensures MapNumbers(MapNumbers(v, Exact), ExactFloat) == MapNumbers(v, LiteralFloat) <==> !HasMinusZero(v)
  {
    var a, b := MapNumbers(MapNumbers(v, Exact), ExactFloat), MapNumbers(v, LiteralFloat);
    match v
    case Number(n) => StoredFloat(n);
    case Array(items) =>
      forall i | 0 <= i < |items| ensures a.items[i] == b.items[i] <==> !HasMinusZero(items[i]) {
        StoredFloats(items[i]);
      }
      if !HasMinusZero(v) {
        assert a.items == b.items;
      } else {
        var i :| 0 <= i < |items| && HasMinusZero(items[i]);
        assert a.items[i] != b.items[i];
      }
    case Object(members) =>
      forall k | k in members ensures a.members[k] == b.members[k] <==> !HasMinusZero(members[k]) {
        StoredFloats(members[k]);
      }
      if !HasMinusZero(v) {
        assert a.members == b.members;
      } else {
        var k :| k in members && HasMinusZero(members[k]);
        assert a.members[k] != b.members[k];
      }
    case _ =>
  }

  /** A request that is stored alike, like the very one that was stored, is accepted
      if and only if none of its numbers is a negative zero: member order, repeated
      names, layout and ways of writing a number never matter. */
  lemma OwnRequest(a: Document, b: Document)
    requires Decodes(b) && Stored(a) == Stored(b)
    ensures SameJson(Stored(a), b) <==> !HasMinusZero(Literals(b))
  {
    StoredFloats(Literals(b));
  }

  // ----------------------------------------------------------------- safe integers

  lemma {:induction false} SafeIntegersAgree(v: Jsonb, w: Value<Decimal>)
    requires SafeIntegers(v) && SafeIntegers(MapNumbers(w, Exact))
    requires MapNumbers(v, ExactFloat) == MapNumbers(w, LiteralFloat)
    ensures v == MapNumbers(w, Exact) && !HasMinusZero(w)
  {
    var a, b, e := MapNumbers(v, ExactFloat), MapNumbers(w, LiteralFloat), MapNumbers(w, Exact);
    match v
    case Number(r) => SafeIntegersDiffer(r, w.n);
    case Array(items) =>
      assert |items| == |a.items| == |b.items| == |w.items| == |e.items|;
      forall i | 0 <= i < |items| ensures items[i] == e.items[i] && !HasMinusZero(w.items[i]) {
        assert a.items[i] == b.items[i];
        assert e.items[i] in e.items;
        SafeIntegersAgree(items[i], w.items[i]);
      }
    case Object(members) =>
      assert members.Keys == a.members.Keys == b.members.Keys == w.members.Keys == e.members.Keys;
      forall k | k in members ensures members[k] == e.members[k] && !HasMinusZero(w.members[k]) {
        assert a.members[k] == b.members[k];
        SafeIntegersAgree(members[k], w.members[k]);
      }
    case _ =>
  }

  /** Where both sides hold only integers of at most 2^53, the comparison is equality
      of JSON values, except that it refuses a negative zero. */
  lemma SameJsonOnSafeIntegers(a: Document, b: Document)
    requires Decodes(b) && SafeIntegers(Stored(a)) && SafeIntegers(Stored(b))
    ensures SameJson(Stored(a), b) <==> Stored(a) == Stored(b) && !HasMinusZero(Literals(b))
  {
    if SameJson(Stored(a), b) {
      SafeIntegersAgree(Stored(a), Literals(b));
    } else if Stored(a) == Stored(b) {
      OwnRequest(a, b);
    }
  }

  // ------------------------------------------------------------ all other numbers

  /** The document with every number replaced. */
  ghost function Rewrite(d: Document, t: Decimal -> Decimal): Document
    decreases d, 1
  {
    match d
    case DNumber(n) => DNumber(t(n))
    case DArray(items) => DArray(RewriteItems(items, t))
    case DObject(members) => DObject(RewriteMembers(members, t))
    case _ => d
  }

  ghost function RewriteItems(items: seq<Document>, t: Decimal -> Decimal): seq<Document>
    decreases items, 0
  {
    if items == [] then [] else [Rewrite(items[0], t)] + RewriteItems(items[1..], t)
  }

  ghost function RewriteMembers(members: seq<Member>, t: Decimal -> Decimal): seq<Member>
    decreases members, 0
  {
    if members == [] then []
    else
      var n := |members| - 1;
      assert members[n] in members && members[..n] < members;
      RewriteMembers(members[..n], t) + [Member(members[n].name, Rewrite(members[n].document, t))]
  }

  lemma {:induction false} LiteralsRewritten(d: Document, t: Decimal -> Decimal)
    ensures Literals(Rewrite(d, t)) == MapNumbers(Literals(d), t)
    decreases d, 1
  {
    match d
    case DArray(items) => ItemsRewritten(items, t);
    case DObject(members) => MembersRewritten(members, t);
    case _ =>
  }

  lemma {:induction false} ItemsRewritten(items: seq<Document>, t: Decimal -> Decimal)
    ensures |LiteralItems(RewriteItems(items, t))| == |items|
    ensures forall i | 0 <= i < |items| ::
              LiteralItems(RewriteItems(items, t))[i] == MapNumbers(LiteralItems(items)[i], t)
    decreases items, 0
  {
    if items != [] {
      LiteralsRewritten(items[0], t);
      ItemsRewritten(items[1..], t);
      assert RewriteItems(items, t)[1..] == RewriteItems(items[1..], t);
    }
  }

  lemma {:induction false} MembersRewritten(members: seq<Member>, t: Decimal -> Decimal)
    ensures LiteralMembers(RewriteMembers(members, t)).Keys == LiteralMembers(members).Keys
    ensures forall k <- LiteralMembers(members) ::
              LiteralMembers(RewriteMembers(members, t))[k] == MapNumbers(LiteralMembers(members)[k], t)
    decreases members, 0
  {
    if members != [] {
      var n := |members| - 1;
      assert members[n] in members && members[..n] < members;
      LiteralsRewritten(members[n].document, t);
      MembersRewritten(members[..n], t);
      var r := RewriteMembers(members, t);
      assert r[..|r| - 1] == RewriteMembers(members[..n], t);
    }
  }

  /** A different number with the same float, for a number that has a float. */
  ghost function Twin(n: Decimal): Decimal {
    if m :| Exact(m) != Exact(n) && LiteralFloat(m) == ExactFloat(Exact(n)) then m else n
  }

  lemma TwinMeaning(n: Decimal)
    ensures LiteralFloat(Twin(n)) == ExactFloat(Exact(n))
    ensures LiteralFloat(n).Some? ==> Exact(Twin(n)) != Exact(n) && LiteralFloat(Twin(n)).Some?
  {
    StoredFloat(n);
    if LiteralFloat(n).Some? {
      var m := HasTwin(n);
    }
  }

  lemma {:induction false} TwinsDecode(d: Document)
    requires Decodes(d)
    ensures Decodes(Rewrite(d, Twin))
    decreases d, 1
  {
    match d
    case DNumber(n) => TwinMeaning(n);
    case DArray(items) => TwinItemsDecode(items);
    case DObject(members) => TwinMembersDecode(members);
    case _ =>
  }

  lemma {:induction false} TwinItemsDecode(items: seq<Document>)
    requires forall x <- items :: Decodes(x)
    ensures forall x <- RewriteItems(items, Twin) :: Decodes(x)
    decreases items, 0
  {
    if items != [] {
      TwinsDecode(items[0]);
      TwinItemsDecode(items[1..]);
    }
  }

  lemma {:induction false} TwinMembersDecode(members: seq<Member>)
    requires forall m <- members :: Decodes(m.document)
    ensures forall m <- RewriteMembers(members, Twin) :: Decodes(m.document)
    decreases members, 0
  {
    if members != [] {
      var n := |members| - 1;
      assert members[n] in members && members[..n] < members;
      TwinsDecode(members[n].document);
      TwinMembersDecode(members[..n]);
    }
  }

  lemma {:induction false} TwinsAgree(v: Value<Decimal>)
    ensures MapNumbers(MapNumbers(v, Exact), ExactFloat) == MapNumbers(MapNumbers(v, Twin), LiteralFloat)
  {
    var a, b := MapNumbers(MapNumbers(v, Exact), ExactFloat), MapNumbers(MapNumbers(v, Twin), LiteralFloat);
    match v
    case Number(n) => TwinMeaning(n);
    case Array(items) =>
      forall i | 0 <= i < |items| ensures a.items[i] == b.items[i] {
        TwinsAgree(items[i]);
      }
      assert a.items == b.items;
    case Object(members) =>
      forall k | k in members ensures a.members[k] == b.members[k] {
        TwinsAgree(members[k]);
      }
      assert a.members == b.members;
    case _ =>
  }

  predicate AllFloats(v: Value<Decimal>) {
    match v
    case Number(n) => LiteralFloat(n).Some?
    case Array(items) => forall x <- items :: AllFloats(x)
    case Object(members) => forall k <- members :: AllFloats(members[k])
    case _ => true
  }

  lemma {:induction false} DecodedFloats(d: Document)
    requires Decodes(d)
    ensures AllFloats(Literals(d))
    decreases d, 1
  {
    match d
    case DArray(items) => DecodedItems(items);
    case DObject(members) => DecodedMembers(members);
    case _ =>
  }

  lemma {:induction false} DecodedItems(items: seq<Document>)
    requires forall x <- items :: Decodes(x)
    ensures forall x <- LiteralItems(items) :: AllFloats(x)
    decreases items, 0
  {
    if items != [] {
      DecodedFloats(items[0]);
      DecodedItems(items[1..]);
    }
  }

  lemma {:induction false} DecodedMembers(members: seq<Member>)
    requires forall m <- members :: Decodes(m.document)
    ensures forall k <- LiteralMembers(members) :: AllFloats(LiteralMembers(members)[k])
    decreases members, 0
  {
    if members != [] {
      var n := |members| - 1;
      assert members[n] in members && members[..n] < members;
      DecodedFloats(members[n].document);
      DecodedMembers(members[..n]);
    }
  }

  lemma {:induction false} TwinsDiffer(v: Value<Decimal>)
    requires AllFloats(v) && HasNumber(MapNumbers(v, Exact))
    ensures MapNumbers(MapNumbers(v, Twin), Exact) != MapNumbers(v, Exact)
  {
    var a, b := MapNumbers(MapNumbers(v, Twin), Exact), MapNumbers(v, Exact);
    match v
    case Number(n) => TwinMeaning(n);
    case Array(items) =>
      var i :| 0 <= i < |b.items| && HasNumber(b.items[i]);
      TwinsDiffer(items[i]);
      assert a.items[i] != b.items[i];
    case Object(members) =>
      var k :| k in b.members && HasNumber(b.members[k]);
      TwinsDiffer(members[k]);
      assert a.members[k] != b.members[k];
    case _ =>
  }

  /** Without numbers, decoding loses nothing. */
  lemma {:induction false} NumberlessAgree(v: Jsonb, w: Value<Decimal>)
    requires !HasNumber(v) && MapNumbers(v, ExactFloat) == MapNumbers(w, LiteralFloat)
    ensures v == MapNumbers(w, Exact)
  {
    var a, b, e := MapNumbers(v, ExactFloat), MapNumbers(w, LiteralFloat), MapNumbers(w, Exact);
    match v
    case Array(items) =>
      assert |items| == |a.items| == |b.items| == |w.items| == |e.items|;
      forall i | 0 <= i < |items| ensures items[i] == e.items[i] {
        assert a.items[i] == b.items[i];
        NumberlessAgree(items[i], w.items[i]);
      }
      assert items == e.items;
    case Object(members) =>
      assert members.Keys == a.members.Keys == b.members.Keys == w.members.Keys == e.members.Keys;
      forall k | k in members ensures members[k] == e.members[k] {
        assert a.members[k] == b.members[k];
        NumberlessAgree(members[k], w.members[k]);
      }
      assert members == e.members;
    case _ =>
  }

  /** Stored arguments accept no request that would be stored differently if and only
      if they hold no number at all: every number shares its float with others. */
  lemma SameJsonExact(a: Document)
    requires Decodes(a)
    ensures (forall b :: SameJson(Stored(a), b) ==> Stored(b) == Stored(a)) <==> !HasNumber(Stored(a))
  {
    if HasNumber(Stored(a)) {
      var b := Rewrite(a, Twin);
      LiteralsRewritten(a, Twin);
      TwinsDecode(a);
      TwinsAgree(Literals(a));
      DecodedFloats(a);
      TwinsDiffer(Literals(a));
      assert SameJson(Stored(a), b) && Stored(b) != Stored(a);
    } else {
      forall b | SameJson(Stored(a), b) ensures Stored(b) == Stored(a) {
        NumberlessAgree(Stored(a), Literals(b));
      }
    }
  }

  // ------------------------------------------------------------------- witnesses

  function OneNumber(n: Decimal): Document {
    DObject([Member("n", DNumber(n))])
  }

  lemma MapOne<N, M>(n: N, number: N -> M)
    ensures MapNumbers(Object(map["n" := Number(n)]), number) == Object(map["n" := Number(number(n))])
  {
    var one: map<string, Value<N>> := map["n" := Number(n)];
    assert one["n"] == Number(n);
    assert MapNumbers(Object(one), number).members == map["n" := Number(number(n))];
  }

  lemma OneLiteral(n: Decimal)
    ensures Literals(OneNumber(n)) == Object(map["n" := Number(n)])
  {
    var members := OneNumber(n).members;
    assert members[..0] == [];
    assert LiteralMembers(members[..0]) == map[];
    assert LiteralMembers(members) == LiteralMembers(members[..0])["n" := Number(n)];
  }

  lemma OneNumberIs(n: Decimal)
    ensures Literals(OneNumber(n)) == Object(map["n" := Number(n)])
    ensures Stored(OneNumber(n)) == Object(map["n" := Number(Exact(n))])
    ensures MapNumbers(Literals(OneNumber(n)), LiteralFloat) == Object(map["n" := Number(LiteralFloat(n))])
    ensures MapNumbers(Stored(OneNumber(n)), ExactFloat) == Object(map["n" := Number(ExactFloat(Exact(n)))])
  {
    OneLiteral(n);
    MapOne(n, Exact);
    MapOne(n, LiteralFloat);
    MapOne(Exact(n), ExactFloat);
  }

  lemma Confused(a: Decimal, b: Decimal)
    requires LiteralFloat(a) == LiteralFloat(b) && LiteralFloat(a).Some? && Exact(a) != Exact(b) && !MinusZero(a)
    ensures SameJson(Stored(OneNumber(a)), OneNumber(b)) && Stored(OneNumber(a)) != Stored(OneNumber(b))
  {
    OneNumberIs(a);
    OneNumberIs(b);
    StoredFloat(a);
    var x: map<string, Jsonb>, y: map<string, Jsonb> := map["n" := Number(Exact(a))], map["n" := Number(Exact(b))];
    assert x["n"] != y["n"];
  }

  /** 2^53 + 1 is taken for 2^53, and 1.00000000000000000001 for 1. */
  lemma ConfusedArguments()
    ensures SameJson(Stored(OneNumber(BIG)), OneNumber(NEXT)) && Stored(OneNumber(BIG)) != Stored(OneNumber(NEXT))
    ensures SameJson(Stored(OneNumber(ONE)), OneNumber(NEARLY_ONE))
    ensures Stored(OneNumber(ONE)) != Stored(OneNumber(NEARLY_ONE))
  {
    IntegerIsLost();
    FractionIsLost();
    Confused(BIG, NEXT);
    Confused(ONE, NEARLY_ONE);
  }

  /** The very request that was stored is refused when it says -0. */
  lemma MinusZeroIsRefused()
    ensures Decodes(OneNumber(Decimal(true, 0, 0)))
    ensures !SameJson(Stored(OneNumber(Decimal(true, 0, 0))), OneNumber(Decimal(true, 0, 0)))
  {
    var n := Decimal(true, 0, 0);
    DoubledZero(UNIT);
    OneNumberIs(n);
    OwnRequest(OneNumber(n), OneNumber(n));
    var v := Literals(OneNumber(n));
    assert "n" in v.members && HasMinusZero(v.members["n"]);
  }
}
