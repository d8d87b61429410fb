/** Translation of a Polar subscription into a register write, and the payment
    grace it carries. */
module Polar {
  import opened Sql
  import opened Subscriptions
  import opened Text
  import Access

  datatype PolarStatus =
    | PTrialing | PActive | PCanceled | PIncomplete | PPastDue | PUnpaid | PPaused
    | POther(name: string)

  /** A subscription as the provider reports it, ids as they are spelled there;
      `organization` is the parsed external id of its customer, absent when missing
      or malformed. */
  datatype PolarSubscription = PolarSubscription(
    id: string,
    customerId: string,
    customerRecordId: string,
    organization: Option<nat>,
    metadataOrganization: Option<nat>,
    productId: string,
    status: PolarStatus,
    periodStart: int,
    periodEnd: int,
    trialEnd: Option<int>,
    cancelAtPeriodEnd: bool,
    canceledAt: Option<int>,
    pastDueAt: Option<int>,
    modifiedAt: Option<int>)

  /** Configured product of each plan code, and the plan rows. */
  datatype Catalog = Catalog(productIds: map<string, string>, plans: map<string, nat>)

  datatype PolarError =
    | OrganizationMissing | OrganizationMismatch | CustomerMismatch | ProductUnknown
    | PlanUnknown | IdentityMissing | PeriodInvalid | MetadataIncomplete
    | GraceDisordered

  const GRACE: int := 3 * DAY

  const PLAN_CODES: seq<string> := ["developer", "pro", "scale"]

  // ---------------------------------------------------------------- plan lookup

  predicate SellsProduct(catalog: Catalog, code: string, product: string) {
    code in catalog.productIds && Trim(catalog.productIds[code]) != "" && Trim(catalog.productIds[code]) == product
  }

  function FirstCode(catalog: Catalog, codes: seq<string>, product: string): (r: Option<string>)
    ensures r.Some? ==> r.value in codes && SellsProduct(catalog, r.value, product)
    ensures r.None? ==> forall c <- codes :: !SellsProduct(catalog, c, product)
  {
    if codes == [] then None
    else if SellsProduct(catalog, codes[0], product) then Some(codes[0])
    else FirstCode(catalog, codes[1..], product)
  }

  /** `planCodeFromProduct`. */
  method PlanCodeFromProduct(catalog: Catalog, product: string)
    returns (result: Result<string, PolarError>)
    ensures result == match FirstCode(catalog, PLAN_CODES, product)
                      case Some(code) => Ok(code)
                      case None => Err(ProductUnknown)
  {
    var i := 0;
    while i < |PLAN_CODES|
      invariant 0 <= i <= |PLAN_CODES|
      invariant FirstCode(catalog, PLAN_CODES, product) == FirstCode(catalog, PLAN_CODES[i..], product)
    {
      var code := PLAN_CODES[i];
      if code in catalog.productIds {
        var expected := Trim(catalog.productIds[code]);
        if expected != "" && expected == product {
          return Ok(code);
        }
      }
      i := i + 1;
    }
    result := Err(ProductUnknown);
  }

  function PolarStatusOf(status: PolarStatus): Status {
    match status
    case PTrialing => Trialing
    case PActive => Active
    case PCanceled => Canceled
    case PIncomplete => Incomplete
    case PPastDue => PastDue
    case PUnpaid => Canceled
    case PPaused => Incomplete
    case POther(_) => Incomplete
  }

  // --------------------------------------------------------------- translation

  /** True when the row that was read already holds this past-due episode. */
  predicate OpenEpisode(read: Option<Subscription>, value: PolarSubscription) {
    && read.Some?
    && read.value.status == PastDue
    && read.value.subscriptionId == Some(value.id)
    && read.value.pastDueAt.Some?
    && read.value.graceEndsAt.Some?
  }

  function FreshStart(eventCreated: int, value: PolarSubscription): int {
    if value.pastDueAt.Some? then value.pastDueAt.value else eventCreated
  }

  function GracePair(read: Option<Subscription>, eventCreated: int, value: PolarSubscription)
    : (Option<int>, Option<int>)
  {
    if !value.status.PPastDue? then (None, None)
    else if OpenEpisode(read, value) then (read.value.pastDueAt, read.value.graceEndsAt)
    else
      var start := FreshStart(eventCreated, value);
      (Some(start), Some(start + GRACE))
  }

  /** A pair that is taken over from the row must not end before it starts. */
  predicate KeepsOrder(read: Option<Subscription>, value: PolarSubscription) {
    value.status.PPastDue? && OpenEpisode(read, value) ==>
      read.value.pastDueAt.value <= read.value.graceEndsAt.value
  }

  /** The request `syncPolarSubscription` hands to `Sync`, given the row it read. Ids
      are trimmed, and a blank one becomes none; the last two errors are those of
      `Sync`, which refuses the request then. */
  function BuildRequest(catalog: Catalog, read: Option<Subscription>, eventCreated: int, value: PolarSubscription)
    : Result<SyncRequest, PolarError>
  {
    if value.organization.None? || value.organization.value == NIL then Err(OrganizationMissing)
    else if value.metadataOrganization.Some? && value.metadataOrganization != value.organization
    then Err(OrganizationMismatch)
    else if value.customerRecordId != value.customerId then Err(CustomerMismatch)
    else match FirstCode(catalog, PLAN_CODES, value.productId)
      case None => Err(ProductUnknown)
      case Some(code) =>
        if code !in catalog.plans || catalog.plans[code] == NIL_PLAN then Err(PlanUnknown)
        else if value.id == "" || value.customerId == "" || eventCreated == ZERO_TIME
        then Err(IdentityMissing)
        else if value.periodStart == ZERO_TIME || value.periodEnd <= value.periodStart
        then Err(PeriodInvalid)
        else if Blank(value.id) || Blank(value.customerId) then Err(MetadataIncomplete)
        else if !KeepsOrder(read, value) then Err(GraceDisordered)
        else
          var pair := GracePair(read, eventCreated, value);
          Ok(Subscription(
               catalog.plans[code], PolarStatusOf(value.status),
               Some(value.periodStart), Some(value.periodEnd), value.trialEnd,
               pair.0, pair.1, value.cancelAtPeriodEnd, value.canceledAt,
               Some(POLAR), Some(Trim(value.customerId)), Some(Trim(value.id)), Some(eventCreated)))
  }

  /** Every write built from a provider event is dated and fully identified, and
      `Sync` never rejects it, whichever row was read. */
  lemma BuiltRequestsAreValid(catalog: Catalog, read: Option<Subscription>, at: int, value: PolarSubscription)
    requires BuildRequest(catalog, read, at, value).Ok?
    ensures var req := BuildRequest(catalog, read, at, value).value;
            && ValidSync(req)
            && Excluded(req).eventAt == Some(at)
            && Excluded(req).customerId == Some(Trim(value.customerId))
            && Excluded(req).subscriptionId == Some(Trim(value.id))
  {
  }

  // --------------------------------------------------------------------- grace

  /** A past-due row holds a deadline three days after its start; others none. */
  predicate GraceOk(row: Subscription) {
    if row.status.PastDue?
    then row.pastDueAt.Some? && row.graceEndsAt == Some(row.pastDueAt.value + GRACE)
    else row.pastDueAt.None? && row.graceEndsAt.None?
  }

  /** Rows whose stored times are real ones. */
  predicate StoredGrace(row: Subscription) {
    && GraceOk(row)
    && row.pastDueAt != Some(ZERO_TIME)
    && row.graceEndsAt != Some(ZERO_TIME)
  }

  /** Neither end of a fresh grace period is the zero time, which would be
      stored as NULL. */
  predicate DatedGrace(eventCreated: int, value: PolarSubscription) {
    value.status.PPastDue? ==>
      var start := FreshStart(eventCreated, value);
      start != ZERO_TIME && start + GRACE != ZERO_TIME
  }

  /** The pair of the request is proper once stored: that of the open episode that
      was read, or a fresh one. */
  predicate ProposesGrace(read: Option<Subscription>, at: int, value: PolarSubscription) {
    if value.status.PPastDue? && OpenEpisode(read, value) then StoredGrace(read.value) else DatedGrace(at, value)
  }

  /** A proposed row carries a proper grace pair if and only if it continues an
      open episode with a proper pair or starts one at a time that is not stored as
      NULL. The row that was read may be arbitrarily stale, and broken. */
  lemma ProposedGrace(catalog: Catalog, read: Option<Subscription>, at: int, value: PolarSubscription)
    requires BuildRequest(catalog, read, at, value).Ok?
    ensures GraceOk(Excluded(BuildRequest(catalog, read, at, value).value)) <==> ProposesGrace(read, at, value)
  {
  }

  /** What the upsert then stores, over any row: where the guard filters the update
      out or the CASE keeps the stored pair it is proper if and only if the row was,
      and otherwise if and only if the proposed one is. */
  lemma StoredRowGrace(catalog: Catalog, row: Option<Subscription>, read: Option<Subscription>, at: int,
                       value: PolarSubscription)
    requires BuildRequest(catalog, read, at, value).Ok?
    ensures var ex := Excluded(BuildRequest(catalog, read, at, value).value);
            GraceOk(After(row, ex)) <==>
              if row.Some? && (!Guard(row.value, ex).Holds() || KeepsGrace(row.value, ex)) then GraceOk(row.value)
              else ProposesGrace(read, at, value)
  {
    ProposedGrace(catalog, read, at, value);
  }

  /** A past-due row that lost an end of its pair to NULL is repaired by the next
      event that the guard admits and that does not lose one again. */
  lemma BrokenRowHeals(catalog: Catalog, row: Subscription, at: int, value: PolarSubscription)
    requires row.status.PastDue? && (row.pastDueAt.None? || row.graceEndsAt.None?)
    requires BuildRequest(catalog, Some(row), at, value).Ok?
    ensures var ex := Excluded(BuildRequest(catalog, Some(row), at, value).value);
            GraceOk(After(Some(row), ex)) <==> Guard(row, ex).Holds() && DatedGrace(at, value)
  {
    StoredRowGrace(catalog, Some(row), Some(row), at, value);
  }

  /** The provider can break the three-day rule: a past-due event dated with the
      zero time stores a deadline without a start. */
  lemma ZeroPastDueBreaksGrace(catalog: Catalog, at: int, value: PolarSubscription)
    requires value.status.PPastDue? && value.pastDueAt == Some(ZERO_TIME)
    requires BuildRequest(catalog, None, at, value).Ok?
    ensures var row := After(None, Excluded(BuildRequest(catalog, None, at, value).value));
            row.status == PastDue && row.pastDueAt.None? && row.graceEndsAt == Some(ZERO_TIME + GRACE)
  {
  }

  lemma ProposedRowStoresGrace(catalog: Catalog, read: Option<Subscription>, at: int, value: PolarSubscription)
    requires read.Some? ==> StoredGrace(read.value)
    requires DatedGrace(at, value) && BuildRequest(catalog, read, at, value).Ok?
    ensures StoredGrace(Excluded(BuildRequest(catalog, read, at, value).value))
    ensures Excluded(BuildRequest(catalog, read, at, value).value).subscriptionId.Some?
  {
  }

  predicate AllStoreGrace(writes: seq<Subscription>) {
    forall w <- writes :: StoredGrace(w) && w.subscriptionId.Some?
  }

  /** The rule survives every interleaving of writes, stale or not. */
  lemma {:induction false} GraceSurvives(row: Option<Subscription>, writes: seq<Subscription>)
    requires row.Some? ==> StoredGrace(row.value)
    requires AllStoreGrace(writes)
    ensures Replay(row, writes).Some? ==> StoredGrace(Replay(row, writes).value)
  {
    if writes != [] {
      var n := |writes| - 1;
      GraceSurvives(row, writes[..n]);
      assert writes[n] in writes;
    }
  }

  /** Within one unbroken past-due episode the pair never changes, so the deadline
      is never moved, however many past-due events arrive and in whatever order. */
  lemma {:induction false} EpisodeKeepsDeadline(row: Subscription, writes: seq<Subscription>)
    requires StoredGrace(row) && row.subscriptionId.Some?
    requires AllStoreGrace(writes)
    requires forall k | 0 <= k <= |writes| ::
               Replay(Some(row), writes[..k]).Some? && Replay(Some(row), writes[..k]).value.status.PastDue?
    ensures var now := Replay(Some(row), writes).value;
            && now.pastDueAt == row.pastDueAt
            && now.graceEndsAt == row.graceEndsAt
            && now.subscriptionId == row.subscriptionId
  {
    assert writes[..|writes|] == writes;
    if writes != [] {
      var n := |writes| - 1;
      forall k | 0 <= k <= n
        ensures writes[..n][..k] == writes[..k]
      {
      }
      EpisodeKeepsDeadline(row, writes[..n]);
      GraceSurvives(Some(row), writes[..n]);
      GuardMeaning(Replay(Some(row), writes[..n]).value, writes[n]);
    }
  }

  /** Past-due access is granted exactly in the three days of the stored start,
      within a started and well-formed period. */
  lemma PastDueAccessWindow(row: Subscription, now: int)
    requires GraceOk(row) && row.status.PastDue?
    ensures Access.PaidAccessActive(Some(row), now) <==>
              && row.periodStart.Some? && row.periodEnd.Some?
              && row.periodStart.value < row.periodEnd.value
              && row.periodStart.value <= now
              && row.pastDueAt.value <= now < row.pastDueAt.value + 3 * DAY
  {
  }

  /** No sequence of events during one episode grants access at or beyond three
      days after the episode began. */
  lemma GraceCannotBeStretched(row: Subscription, writes: seq<Subscription>, now: int)
    requires StoredGrace(row) && row.status.PastDue? && row.subscriptionId.Some?
    requires AllStoreGrace(writes)
    requires forall k | 0 <= k <= |writes| ::
               Replay(Some(row), writes[..k]).Some? && Replay(Some(row), writes[..k]).value.status.PastDue?
    ensures Access.PaidAccessActive(Replay(Some(row), writes), now) ==>
              row.pastDueAt.value <= now < row.pastDueAt.value + 3 * DAY
  {
    EpisodeKeepsDeadline(row, writes);
    GraceSurvives(Some(row), writes);
    assert writes[..|writes|] == writes;
    PastDueAccessWindow(Replay(Some(row), writes).value, now);
  }
}
