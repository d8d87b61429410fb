/** The per-organization subscription register: one row per organization,
    written only by `UpsertOrganizationSubscription`. */
module Subscriptions {
  import opened Sql

  datatype Status =
    | Trialing | Active | PastDue | Canceled | Incomplete
    | Unsupported(name: string)

  datatype Subscription = Subscription(
    planId: nat,
    status: Status,
    periodStart: Option<int>,
    periodEnd: Option<int>,
    trialEndsAt: Option<int>,
    pastDueAt: Option<int>,
    graceEndsAt: Option<int>,
    cancelAtPeriodEnd: bool,
    canceledAt: Option<int>,
    provider: Option<string>,
    customerId: Option<string>,
    subscriptionId: Option<string>,
    eventAt: Option<int>)

  /** The zero `time.Time`, 0001-01-01T00:00:00Z, which the driver stores as NULL. */
  const ZERO_TIME: int := -62_135_596_800 * SECOND

  const POLAR := "polar"

  const NIL_PLAN: nat := 0

  /** A request as Go holds it: the same fields as the row, before conversion. */
  type SyncRequest = Subscription

  function NullableTimestamptz(value: Option<int>): Option<int> {
    if value == Some(ZERO_TIME) then None else value
  }

  /** The row proposed for insertion, SQL's EXCLUDED. */
  function Excluded(req: SyncRequest): Subscription {
    req.(periodStart := NullableTimestamptz(req.periodStart),
         periodEnd := NullableTimestamptz(req.periodEnd),
         trialEndsAt := NullableTimestamptz(req.trialEndsAt),
         pastDueAt := NullableTimestamptz(req.pastDueAt),
         graceEndsAt := NullableTimestamptz(req.graceEndsAt),
         canceledAt := NullableTimestamptz(req.canceledAt),
         eventAt := NullableTimestamptz(req.eventAt))
  }

  // ---------------------------------------------------------------- validation

  /** True when `validateSync` accepts the request. */
  predicate ValidSync(req: SyncRequest) {
    && req.planId != NIL_PLAN
    && !req.status.Unsupported?
    && (req.pastDueAt.Some? || req.graceEndsAt.Some? ==>
          && req.status.PastDue? && req.pastDueAt.Some? && req.graceEndsAt.Some?
          && req.pastDueAt.value <= req.graceEndsAt.value)
    && (req.provider.Some? ==>
          && req.provider.value == POLAR
          && req.customerId.Some? && req.subscriptionId.Some? && req.eventAt.Some?)
    && (req.periodStart.Some? && req.periodEnd.Some? ==> req.periodStart.value < req.periodEnd.value)
  }

  // -------------------------------------------------------------------- upsert

  /** The WHERE of ON CONFLICT DO UPDATE, evaluated with NULLs. */
  function Guard(row: Subscription, ex: Subscription): Truth {
    And(And(
          Or(IsNull(row.eventAt), And(IsNotNull(ex.eventAt), Le(row.eventAt, ex.eventAt))),
          Or(Or(IsNull(row.subscriptionId), Eq(row.subscriptionId, ex.subscriptionId)),
             Bool(row.status == Canceled))),
        Or(IsNull(row.customerId), Eq(row.customerId, ex.customerId)))
  }

  /** The CASE condition that keeps the stored grace pair. */
  predicate KeepsGrace(row: Subscription, ex: Subscription) {
    && row.status == PastDue
    && ex.status == PastDue
    && row.subscriptionId == ex.subscriptionId   // IS NOT DISTINCT FROM
    && row.pastDueAt.Some?
    && row.graceEndsAt.Some?
  }

  function Overwrite(row: Subscription, ex: Subscription): Subscription {
    if KeepsGrace(row, ex)
    then ex.(pastDueAt := row.pastDueAt, graceEndsAt := row.graceEndsAt)
    else ex
  }

  /** RETURNING of the statement: `None` when the guard filtered the update out. */
  function Upsert(row: Option<Subscription>, ex: Subscription): Option<Subscription> {
    match row
    case None => Some(ex)
    case Some(r) => if Guard(r, ex).Holds() then Some(Overwrite(r, ex)) else None
  }

  /** The stored row after the statement. */
  function After(row: Option<Subscription>, ex: Subscription): Subscription {
    match Upsert(row, ex)
    case Some(r) => r
    case None => row.value
  }

  /** What the guard says once NULL has been taken into account. */
  lemma GuardMeaning(row: Subscription, ex: Subscription)
    ensures Guard(row, ex).Holds() <==>
              && (row.eventAt.Some? ==> ex.eventAt.Some? && row.eventAt.value <= ex.eventAt.value)
              && (row.subscriptionId.Some? && row.status != Canceled ==> ex.subscriptionId == row.subscriptionId)
              && (row.customerId.Some? ==> ex.customerId == row.customerId)
  {
  }

  /** The row after a sequence of statements, each seeing its predecessor's row. */
  function Replay(row: Option<Subscription>, writes: seq<Subscription>): Option<Subscription> {
    if writes == [] then row
    else Some(After(Replay(row, writes[..|writes| - 1]), writes[|writes| - 1]))
  }

  lemma ReplayPrefix(row: Option<Subscription>, writes: seq<Subscription>, k: nat)
    requires k < |writes|
    ensures Replay(row, writes[..k + 1]) == Some(After(Replay(row, writes[..k]), writes[k]))
  {
    assert writes[..k + 1][..k] == writes[..k];
  }

  // --------------------------------------------------------------- stored columns

  /** The column holds the instant that was sent; the zero time, year 1, leaves none. */
  predicate Holds(column: Option<int>, sent: Option<int>) {
    column == if sent == Some(-62_135_596_800_000_000) then None else sent
  }

  /** Every column of the request except the grace pair is stored as it was sent. */
  predicate StoredAs(row: Subscription, req: SyncRequest) {
    && row.planId == req.planId && row.status == req.status && row.cancelAtPeriodEnd == req.cancelAtPeriodEnd
    && row.provider == req.provider && row.customerId == req.customerId
    && row.subscriptionId == req.subscriptionId
    && Holds(row.periodStart, req.periodStart) && Holds(row.periodEnd, req.periodEnd)
    && Holds(row.trialEndsAt, req.trialEndsAt) && Holds(row.canceledAt, req.canceledAt)
    && Holds(row.eventAt, req.eventAt)
  }

  /** The grace pair is the one sent, except that a pair of the same past-due subscription
      is kept. */
  predicate PairStored(before: Option<Subscription>, row: Subscription, req: SyncRequest) {
    if before.Some? && before.value.status == PastDue == req.status
       && before.value.subscriptionId == req.subscriptionId
       && before.value.pastDueAt.Some? && before.value.graceEndsAt.Some?
    then row.pastDueAt == before.value.pastDueAt && row.graceEndsAt == before.value.graceEndsAt
    else Holds(row.pastDueAt, req.pastDueAt) && Holds(row.graceEndsAt, req.graceEndsAt)
  }

  /** Requests in their order, on no row to begin with. */
  function Sent(reqs: seq<SyncRequest>): Option<Subscription> {
    if reqs == [] then None else Some(After(Sent(reqs[..|reqs| - 1]), Excluded(reqs[|reqs| - 1])))
  }

  /** What the service's checks keep true of a row. */
  predicate Sound(row: Subscription) {
    && row.planId != 0 && !row.status.Unsupported?
    && (row.periodStart.Some? && row.periodEnd.Some? ==> row.periodStart.value < row.periodEnd.value)
    && (row.pastDueAt.Some? || row.graceEndsAt.Some? ==> row.status == PastDue)
    && (row.pastDueAt.Some? && row.graceEndsAt.Some? ==> row.pastDueAt.value <= row.graceEndsAt.value)
    && (row.provider.Some? ==>
          row.provider.value == "polar" && row.customerId.Some? && row.subscriptionId.Some?)
  }

  /** What the service accepts. */
  predicate Acceptable(req: SyncRequest) {
    && req.planId > 0
    && req.status in {Trialing, Active, PastDue, Canceled, Incomplete}
    && (if req.pastDueAt.None? then req.graceEndsAt.None?
        else req.status == PastDue && req.graceEndsAt.Some? && req.graceEndsAt.value >= req.pastDueAt.value)
    && (req.provider == None
        || (req.provider == Some("polar") && req.customerId != None && req.subscriptionId != None
            && req.eventAt != None))
    && (req.periodStart == None || req.periodEnd == None || req.periodEnd.value > req.periodStart.value)
  }

  lemma StoredOrNot(row: Option<Subscription>, req: SyncRequest)
    ensures Upsert(row, Excluded(req)).Some? ==>
              StoredAs(After(row, Excluded(req)), req) && PairStored(row, After(row, Excluded(req)), req)
    ensures Upsert(row, Excluded(req)).None? ==> Some(After(row, Excluded(req))) == row
    ensures ValidSync(req) <==> Acceptable(req)
    ensures Acceptable(req) && (row.Some? ==> Sound(row.value)) ==> Sound(After(row, Excluded(req)))
  {
  }

  /** After any accepted requests the row is sound and, apart from its grace pair, holds
      the columns of one of them. */
  lemma {:induction false} StoredIsOneOfTheSent(reqs: seq<SyncRequest>) returns (k: nat)
    requires reqs != [] && forall req <- reqs :: Acceptable(req)
    ensures k < |reqs| && Sent(reqs).Some? && StoredAs(Sent(reqs).value, reqs[k]) && Sound(Sent(reqs).value)
  {
    var n := |reqs| - 1;
    assert reqs[n] in reqs && forall req <- reqs[..n] :: req in reqs;
    StoredOrNot(Sent(reqs[..n]), reqs[n]);
    k := n;
    if n > 0 {
      var j := StoredIsOneOfTheSent(reqs[..n]);
      k := if Upsert(Sent(reqs[..n]), Excluded(reqs[n])).Some? then n else j;
    }
  }

  // ----------------------------------------------------------- identity safety

  /** What one row may become in any number of statements. */
  predicate IdentityKept(before: Subscription, after: Subscription) {
    && (before.eventAt.Some? ==> after.eventAt.Some? && before.eventAt.value <= after.eventAt.value)
    && (before.customerId.Some? ==> after.customerId == before.customerId)
  }

  /** Over any run, with any NULLs, the provider timestamp never decreases or
      becomes NULL and a set customer never changes. */
  lemma {:induction false} RegisterIdentity(row: Subscription, writes: seq<Subscription>)
    ensures Replay(Some(row), writes).Some?
    ensures IdentityKept(row, Replay(Some(row), writes).value)
  {
    if writes != [] {
      var n := |writes| - 1;
      RegisterIdentity(row, writes[..n]);
      GuardMeaning(Replay(Some(row), writes[..n]).value, writes[n]);
    }
  }

  /** A set subscription id can only have been replaced at a moment when the
      row carrying it was canceled. */
  lemma {:induction false} SubscriptionChangesOnlyWhenCanceled(row: Subscription, writes: seq<Subscription>)
    requires row.subscriptionId.Some?
    requires Replay(Some(row), writes).value.subscriptionId != row.subscriptionId
    ensures exists k: nat ::
              && k < |writes|
              && Replay(Some(row), writes[..k]).Some?
              && var at := Replay(Some(row), writes[..k]).value;
              at.status == Canceled && at.subscriptionId == row.subscriptionId
  {
    var n := |writes| - 1;
    RegisterIdentity(row, writes[..n]);
    var at := Replay(Some(row), writes[..n]).value;
    if at.subscriptionId == row.subscriptionId {
      GuardMeaning(at, writes[n]);
      assert Replay(Some(row), writes[..n]).value.status == Canceled;
    } else {
      SubscriptionChangesOnlyWhenCanceled(row, writes[..n]);
      var k: nat :| k < n && Replay(Some(row), writes[..n][..k]).Some? &&
        Replay(Some(row), writes[..n][..k]).value.status == Canceled &&
        Replay(Some(row), writes[..n][..k]).value.subscriptionId == row.subscriptionId;
      assert writes[..n][..k] == writes[..k];
    }
  }

  // --------------------------------------------------------------- convergence

  /** The provider-authoritative columns: everything but the grace pair, whose
      value depends on the order in which past-due events arrive. */
  function Core(row: Subscription): Subscription {
    row.(pastDueAt := None, graceEndsAt := None)
  }

  /** All writes concern one customer and one subscription and are dated. */
  predicate OneSubscription(writes: seq<Subscription>, customer: string, subscription: string) {
    forall w <- writes ::
      w.customerId == Some(customer) && w.subscriptionId == Some(subscription) && w.eventAt.Some?
  }

  predicate IsNewest(writes: seq<Subscription>, w: Subscription)
    requires forall v <- writes :: v.eventAt.Some?
  {
    w in writes && forall v <- writes :: v.eventAt.value <= w.eventAt.value
  }

  lemma NewerWins(row: Subscription, last: Subscription)
    requires row.subscriptionId.Some? && row.customerId.Some? && row.eventAt.Some? && last.eventAt.Some?
    requires row.subscriptionId == last.subscriptionId && row.customerId == last.customerId
    ensures Core(After(Some(row), last))
            == if row.eventAt.value <= last.eventAt.value then Core(last) else Core(row)
  {
    GuardMeaning(row, last);
  }

  /** From no row, the stored core columns are those of a newest write: the last
      delivered among the writes with the greatest provider timestamp. */
  lemma {:induction false} LastWriterWins(writes: seq<Subscription>, customer: string, subscription: string)
    returns (winner: nat)
    requires writes != [] && OneSubscription(writes, customer, subscription)
    ensures winner < |writes|
    ensures forall j :: 0 <= j <= winner ==> writes[j].eventAt.value <= writes[winner].eventAt.value
    ensures forall j :: winner < j < |writes| ==> writes[j].eventAt.value < writes[winner].eventAt.value
    ensures Replay(None, writes).Some? && Core(Replay(None, writes).value) == Core(writes[winner])
  {
    var n := |writes| - 1;
    var last := writes[n];
    if n == 0 {
      assert writes[..n] == [];
      winner := 0;
    } else {
      assert forall w <- writes[..n] :: w in writes;
      var prior := LastWriterWins(writes[..n], customer, subscription);
      var row := Replay(None, writes[..n]).value;
      assert Core(row).eventAt == row.eventAt && Core(row).customerId == row.customerId
             && Core(row).subscriptionId == row.subscriptionId;
      assert writes[prior] in writes;
      NewerWins(row, last);
      winner := if row.eventAt.value <= last.eventAt.value then n else prior;
    }
  }

  /** Ties at the greatest timestamp carry the same columns. */
  ghost predicate NewestAgree(writes: seq<Subscription>)
    requires forall v <- writes :: v.eventAt.Some?
  {
    forall v, w :: IsNewest(writes, v) && IsNewest(writes, w) ==> Core(v) == Core(w)
  }

  ghost predicate SameDeliveries(p: seq<Subscription>, q: seq<Subscription>) {
    forall w :: w in p <==> w in q
  }

  /** Every delivery order, with any duplication, stores the same core columns. */
  ghost predicate OrderIndependent(p: seq<Subscription>) {
    forall q :: SameDeliveries(p, q) && Replay(None, q).Some? && Replay(None, p).Some? ==>
      Core(Replay(None, q).value) == Core(Replay(None, p).value)
  }

  lemma NewestIsStored(p: seq<Subscription>, w: Subscription, customer: string, subscription: string)
    requires OneSubscription(p, customer, subscription) && IsNewest(p, w)
    ensures Core(After(Replay(None, p), w)) == Core(w)
  {
    var k := LastWriterWins(p, customer, subscription);
    var row := Replay(None, p).value;
    assert p[k] in p;
    assert Core(row).eventAt == row.eventAt && Core(row).customerId == row.customerId
           && Core(row).subscriptionId == row.subscriptionId;
    GuardMeaning(row, w);
  }

  /** Convergence, exactly: delivery order and duplication are irrelevant if and
      only if no two writes tie at the newest timestamp with different columns. */
  lemma Convergence(p: seq<Subscription>, customer: string, subscription: string)
    requires p != [] && OneSubscription(p, customer, subscription)
    ensures OrderIndependent(p) <==> NewestAgree(p)
  {
    if NewestAgree(p) {
      var i := LastWriterWins(p, customer, subscription);
      forall q | SameDeliveries(p, q) && Replay(None, q).Some?
        ensures Core(Replay(None, q).value) == Core(Replay(None, p).value)
      {
        assert p[0] in q;
        assert forall w <- q :: w in p;
        var j := LastWriterWins(q, customer, subscription);
        assert q[j] in p && p[i] in q;
        assert IsNewest(p, p[i]) && IsNewest(p, q[j]);
      }
    }
    if OrderIndependent(p) {
      forall v, w | IsNewest(p, v) && IsNewest(p, w)
        ensures Core(v) == Core(w)
      {
        NewestIsStored(p, v, customer, subscription);
        NewestIsStored(p, w, customer, subscription);
        assert (p + [v])[..|p|] == p && (p + [w])[..|p|] == p;
        assert SameDeliveries(p, p + [v]) && SameDeliveries(p, p + [w]);
        RegisterStays(p);
      }
    }
  }

  lemma RegisterStays(p: seq<Subscription>)
    requires p != []
    ensures Replay(None, p).Some?
  {
  }

  /** A tie: two writes with one provider timestamp, each stored when it comes last. */
  lemma TiesDiverge(first: Subscription)
    requires first.customerId == Some("c") && first.subscriptionId == Some("a") && first.eventAt == Some(1)
    ensures var second := first.(planId := first.planId + 1);
            && Core(Replay(None, [first, second]).value) == Core(second)
            && Core(Replay(None, [second, first]).value) == Core(first)
            && Core(first) != Core(second)
  {
    var second := first.(planId := first.planId + 1);
    assert [first, second][..1] == [first] && [second, first][..1] == [second];
    assert [first][..0] == [] && [second][..0] == [];
    assert Replay(None, [first]) == Some(first) && Replay(None, [second]) == Some(second);
    NewerWins(first, second);
    NewerWins(second, first);
    assert Core(first).planId != Core(second).planId;
  }

  /** With two subscription ids order matters: delivering the newer subscription
      before the older one's cancellation loses it. Module `Convergence` says
      exactly which deliveries converge. */
  lemma TwoSubscriptionsDoNotConverge(active: Subscription)
    requires active.status == Active && active.customerId == Some("c")
    requires active.subscriptionId == Some("a") && active.eventAt == Some(1)
    ensures var canceled := active.(status := Canceled, eventAt := Some(2));
            var renewed := active.(subscriptionId := Some("b"), eventAt := Some(3));
            && Replay(None, [active, canceled, renewed]).value == renewed
            && Replay(None, [active, renewed, canceled]).value == canceled
  {
    var canceled := active.(status := Canceled, eventAt := Some(2));
    var renewed := active.(subscriptionId := Some("b"), eventAt := Some(3));
    var inOrder := [active, canceled, renewed];
    var swapped := [active, renewed, canceled];
    assert inOrder[..2][..1] == [active] && swapped[..2][..1] == [active];
    assert inOrder[..2] == [active, canceled] && swapped[..2] == [active, renewed];
    assert [active][..0] == [];
    assert Replay(None, [active]) == Some(active);
    assert Replay(None, [active, canceled]) == Some(canceled);
    assert Some("a").value != Some("b").value;
    assert Replay(None, [active, renewed]) == Some(active);
  }

  // ------------------------------------------------------------------- service

  datatype SyncError = BadRequest

  /** The table, with the service's `Get` and `Sync` over it. */
  class Table {
    var rows: map<nat, Subscription>

    function Row(organization: nat): Option<Subscription>
      reads this
    {
      if organization in rows then Some(rows[organization]) else None
    }

    constructor ()
      ensures rows == map[]
    {
      rows := map[];
    }

    method UpsertOrganizationSubscription(organization: nat, req: SyncRequest)
      returns (returned: Option<Subscription>)
      modifies this
      ensures returned == Upsert(old(Row(organization)), Excluded(req))
      ensures rows == old(rows)[organization := After(old(Row(organization)), Excluded(req))]
    {
      var ex := Excluded(req);
      if organization !in rows {
        rows := rows[organization := ex];
        return Some(ex);
      }
      var row := rows[organization];
      if Guard(row, ex).Holds() {
        rows := rows[organization := Overwrite(row, ex)];
        return Some(rows[organization]);
      }
      returned := None;
    }

    /** `Sync` refuses the nil organization and what `validateSync` refuses. A
        filtered update is not an error; the caller gets the current row, so the
        race error after it cannot be reached. */
    method Sync(organization: nat, req: SyncRequest)
      returns (result: Result<Subscription, SyncError>)
      modifies this
      ensures result.Err? <==> organization == NIL || !Acceptable(req)
      ensures result.Err? ==> rows == old(rows)
      ensures result.Ok? ==>
                && rows == old(rows)[organization := After(old(Row(organization)), Excluded(req))]
                && result.value == rows[organization]
      ensures result.Ok? && Upsert(old(Row(organization)), Excluded(req)).Some? ==>
                StoredAs(result.value, req) && PairStored(old(Row(organization)), result.value, req)
    {
      StoredOrNot(Row(organization), req);
      if organization == NIL || !ValidSync(req) {
        return Err(BadRequest);
      }
      var returned := UpsertOrganizationSubscription(organization, req);
      if returned.None? {
        assert organization in rows;
        return Ok(rows[organization]);
      }
      result := Ok(returned.value);
    }
  }
}
