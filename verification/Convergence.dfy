/** Delivery order and duplication for any writes to one organization: any number
    of subscriptions and customers, and NULLs anywhere. */
module Convergence {
  import opened Sql
  import opened Subscriptions

  /** A row with v's columns lets c in, and a row with c's keeps v out. */
  predicate GivesWay(v: Subscription, c: Subscription) {
    Guard(v, c).Holds() && !Guard(c, v).Holds()
  }

  /** Every delivered write either carries c's columns or gives way to c. */
  predicate Settles(p: seq<Subscription>, c: Subscription) {
    c in p && forall v <- p :: Core(v) == Core(c) || GivesWay(v, c)
  }

  /** Between dated writes for one customer, v gives way to c when it is older
      and of c's subscription or canceled, or when it ties with c, is of another
      subscription, and is canceled while c is not. */
  lemma GivesWayMeaning(v: Subscription, c: Subscription)
    requires v.customerId.Some? && v.customerId == c.customerId
    requires v.subscriptionId.Some? && c.subscriptionId.Some? && v.eventAt.Some? && c.eventAt.Some?
    ensures GivesWay(v, c) <==>
              || (&& v.eventAt.value < c.eventAt.value
                  && (v.subscriptionId == c.subscriptionId || v.status == Canceled))
              || (&& v.eventAt == c.eventAt
                  && v.subscriptionId != c.subscriptionId
                  && v.status == Canceled && c.status != Canceled)
  {
    GuardMeaning(v, c);
    GuardMeaning(c, v);
  }

  /** The guard reads the core columns alone. */
  lemma GuardReadsCore(row: Subscription, held: Subscription, ex: Subscription, like: Subscription)
    requires Core(row) == Core(held) && Core(ex) == Core(like)
    ensures Guard(row, ex).Holds() <==> Guard(held, like).Holds()
  {
    assert row == Core(row).(pastDueAt := row.pastDueAt, graceEndsAt := row.graceEndsAt);
    assert held == Core(row).(pastDueAt := held.pastDueAt, graceEndsAt := held.graceEndsAt);
    assert ex == Core(ex).(pastDueAt := ex.pastDueAt, graceEndsAt := ex.graceEndsAt);
    assert like == Core(ex).(pastDueAt := like.pastDueAt, graceEndsAt := like.graceEndsAt);
  }

  /** The stored core columns are always those of one delivered write. */
  lemma {:induction false} StoredWasDelivered(p: seq<Subscription>) returns (k: nat)
    requires p != []
    ensures k < |p| && Replay(None, p).Some? && Core(Replay(None, p).value) == Core(p[k])
  {
    var n := |p| - 1;
    if n == 0 {
      assert p[..n] == [];
      k := 0;
    } else {
      k := StoredWasDelivered(p[..n]);
      if Guard(Replay(None, p[..n]).value, p[n]).Holds() {
        k := n;
      }
    }
  }

  /** Once c has been delivered its columns are stored and stay. */
  lemma {:induction false} SettledIsStored(p: seq<Subscription>, q: seq<Subscription>, c: Subscription)
    requires Settles(p, c) && (forall w <- q :: w in p) && c in q
    ensures Replay(None, q).Some? && Core(Replay(None, q).value) == Core(c)
  {
    var n := |q| - 1;
    var last := q[n];
    if n == 0 {
      assert q[..n] == [];
    } else {
      var k := StoredWasDelivered(q[..n]);
      var row := Replay(None, q[..n]).value;
      if c in q[..n] {
        SettledIsStored(p, q[..n], c);
        GuardReadsCore(row, c, last, last);
      } else {
        assert last == c && q[k] in p;
        GuardReadsCore(row, q[k], c, c);
      }
    }
  }

  /** The writes of p that carry c's columns, or the others. */
  function Sift(p: seq<Subscription>, c: Subscription, alike: bool): (r: seq<Subscription>)
    ensures forall w :: w in r <==> w in p && (Core(w) == Core(c)) == alike
  {
    if p == [] then []
    else if (Core(p[0]) == Core(c)) == alike then [p[0]] + Sift(p[1..], c, alike)
    else Sift(p[1..], c, alike)
  }

  /** Where v does not let c in, the writes that carry c's columns change nothing. */
  lemma {:induction false} KeptOut(v: Subscription, alike: seq<Subscription>, c: Subscription)
    requires !Guard(v, c).Holds() && forall w <- alike :: Core(w) == Core(c)
    ensures Replay(None, [v] + alike) == Some(v)
  {
    var q := [v] + alike;
    if alike == [] {
      assert q[..0] == [];
    } else {
      var m := |alike| - 1;
      assert q[..|q| - 1] == [v] + alike[..m];
      KeptOut(v, alike[..m], c);
      assert alike[m] in alike;
      GuardReadsCore(v, v, alike[m], c);
    }
  }

  /** Writes that do not carry c's columns never store them. */
  lemma {:induction false} NeverStored(first: seq<Subscription>, others: seq<Subscription>, c: Subscription)
    requires Replay(None, first).Some? && Core(Replay(None, first).value) != Core(c)
    requires forall w <- others :: Core(w) != Core(c)
    ensures Replay(None, first + others).Some? && Core(Replay(None, first + others).value) != Core(c)
  {
    var q := first + others;
    if others == [] {
      assert q == first;
    } else {
      var m := |others| - 1;
      assert q[..|q| - 1] == first + others[..m] && q[|q| - 1] == others[m];
      NeverStored(first, others[..m], c);
      assert others[m] in others;
    }
  }

  /** A v that keeps c out can be delivered first: then c's columns are not stored. */
  lemma CanBeShutOut(p: seq<Subscription>, v: Subscription, c: Subscription) returns (q: seq<Subscription>)
    requires v in p && Core(v) != Core(c) && !Guard(v, c).Holds()
    ensures SameDeliveries(p, q) && Replay(None, q).Some? && Core(Replay(None, q).value) != Core(c)
  {
    var alike, others := Sift(p, c, true), Sift(p, c, false);
    KeptOut(v, alike, c);
    NeverStored([v] + alike, others, c);
    q := [v] + alike + others;
  }

  /** A v that c does not keep out can be delivered last: then its columns are stored. */
  lemma CanComeLast(p: seq<Subscription>, v: Subscription, c: Subscription)
    requires v in p && Replay(None, p).Some? && Core(Replay(None, p).value) == Core(c)
    requires Guard(c, v).Holds()
    ensures SameDeliveries(p, p + [v]) && Replay(None, p + [v]).Some?
    ensures Core(Replay(None, p + [v]).value) == Core(v)
  {
    assert (p + [v])[..|p|] == p;
    GuardReadsCore(Replay(None, p).value, c, v, v);
  }

  /** Where every order stores the same columns, all other writes give way to
      the one that carries them. */
  lemma IndependentSettles(p: seq<Subscription>) returns (c: Subscription)
    requires p != [] && OrderIndependent(p)
    ensures Settles(p, c)
  {
    var k := StoredWasDelivered(p);
    c := p[k];
    forall v | v in p && Core(v) != Core(c)
      ensures GivesWay(v, c)
    {
      if Guard(c, v).Holds() {
        CanComeLast(p, v, c);
      }
      if !Guard(v, c).Holds() {
        var q := CanBeShutOut(p, v, c);
      }
    }
  }

  /** Convergence of any deliveries, exactly: order and duplication are
      irrelevant if and only if one write settles the others. */
  lemma ConvergenceOfAny(p: seq<Subscription>)
    requires p != []
    ensures OrderIndependent(p) <==> exists c :: Settles(p, c)
    ensures forall c :: Settles(p, c) ==> Replay(None, p).Some? && Core(Replay(None, p).value) == Core(c)
  {
    forall c | Settles(p, c)
      ensures OrderIndependent(p) && Replay(None, p).Some? && Core(Replay(None, p).value) == Core(c)
    {
      SettledIsStored(p, p, c);
      forall q | SameDeliveries(p, q) && Replay(None, q).Some?
        ensures Core(Replay(None, q).value) == Core(Replay(None, p).value)
      {
        SettledIsStored(p, q, c);
      }
    }
    if OrderIndependent(p) {
      var c := IndependentSettles(p);
    }
  }
}
