/** What a provider value comes to in the register, column by column, and what access
    it gives. */
module Translation {
  import opened Sql
  import opened Text
  import opened Subscriptions
  import opened Polar
  import Access

  // ---------------------------------------------------------------------- accepted

  predicate Configured(catalog: Catalog, code: string, product: string) {
    product != "" && code in catalog.productIds && Trim(catalog.productIds[code]) == product
  }

  /** The plan for a product: that of the first of the three codes configured for it. */
  predicate PlanFor(catalog: Catalog, product: string, plan: nat) {
    plan != 0 &&
    if Configured(catalog, "developer", product) then
      "developer" in catalog.plans && catalog.plans["developer"] == plan
    else if Configured(catalog, "pro", product) then "pro" in catalog.plans && catalog.plans["pro"] == plan
    else Configured(catalog, "scale", product) && "scale" in catalog.plans && catalog.plans["scale"] == plan
  }

  /** What is demanded of a provider value and its timestamp. */
  ghost predicate Translates(catalog: Catalog, at: int, value: PolarSubscription) {
    && value.organization.Some? && value.organization.value != NIL
    && (value.metadataOrganization.Some? ==> value.metadataOrganization == value.organization)
    && value.customerRecordId == value.customerId
    && (exists plan :: PlanFor(catalog, value.productId, plan))
    && !Blank(value.id) && !Blank(value.customerId)
    && at != ZERO_TIME && value.periodStart != ZERO_TIME && value.periodStart < value.periodEnd
  }

  lemma CodeFor(catalog: Catalog, product: string)
    ensures var code := FirstCode(catalog, PLAN_CODES, product);
            code == if Configured(catalog, "developer", product) then Some("developer")
                    else if Configured(catalog, "pro", product) then Some("pro")
                    else if Configured(catalog, "scale", product) then Some("scale")
                    else None
  {
    assert PLAN_CODES[1..] == ["pro", "scale"];
    assert PLAN_CODES[1..][1..] == ["scale"];
    assert PLAN_CODES[1..][1..][1..] == [];
    assert FirstCode(catalog, [], product) == None;
    assert SellsProduct(catalog, "developer", product) <==> Configured(catalog, "developer", product);
    assert SellsProduct(catalog, "pro", product) <==> Configured(catalog, "pro", product);
    assert SellsProduct(catalog, "scale", product) <==> Configured(catalog, "scale", product);
  }

  /** The pair of a row is in order, as validation demands of every write. */
  predicate PairOrdered(row: Option<Subscription>) {
    row.Some? && row.value.pastDueAt.Some? && row.value.graceEndsAt.Some? ==>
      row.value.pastDueAt.value <= row.value.graceEndsAt.value
  }

  /** A request is built from exactly these values, where the row that was read does not
      end its grace before it starts. */
  lemma TranslatesExactly(catalog: Catalog, read: Option<Subscription>, at: int, value: PolarSubscription)
    ensures BuildRequest(catalog, read, at, value).Ok? ==> Translates(catalog, at, value)
    ensures Translates(catalog, at, value) && PairOrdered(read) ==> BuildRequest(catalog, read, at, value).Ok?
  {
    CodeFor(catalog, value.productId);
    var code := FirstCode(catalog, PLAN_CODES, value.productId);
    if code.Some? && code.value in catalog.plans && catalog.plans[code.value] != NIL_PLAN {
      assert PlanFor(catalog, value.productId, catalog.plans[code.value]);
    }
    assert Blank("");
  }

  // ----------------------------------------------------------------------- columns

  /** The stored status of each provider status. */
  predicate StatusFor(status: PolarStatus, stored: Status) {
    match status
    case PTrialing => stored == Trialing
    case PActive => stored == Active
    case PPastDue => stored == PastDue
    case PCanceled => stored == Canceled
    case PUnpaid => stored == Canceled
    case PIncomplete => stored == Incomplete
    case PPaused => stored == Incomplete
    case POther(_) => stored == Incomplete
  }

  /** A time as it is stored: the zero time as NULL. */
  predicate StoredTime(sent: Option<int>, stored: Option<int>) {
    if sent.Some? && sent.value == ZERO_TIME then stored.None? else stored == sent
  }

  /** The row a value is written as, the grace pair apart. */
  predicate WrittenAs(catalog: Catalog, at: int, value: PolarSubscription, row: Subscription) {
    && PlanFor(catalog, value.productId, row.planId)
    && StatusFor(value.status, row.status)
    && row.periodStart == Some(value.periodStart)
    && StoredTime(Some(value.periodEnd), row.periodEnd)
    && StoredTime(value.trialEnd, row.trialEndsAt)
    && row.cancelAtPeriodEnd == value.cancelAtPeriodEnd
    && StoredTime(value.canceledAt, row.canceledAt)
    && row.provider == Some("polar")
    && row.customerId == Some(Trim(value.customerId))
    && row.subscriptionId == Some(Trim(value.id))
    && row.eventAt == Some(at)
  }

  /** The grace pair: none unless past due; the one that was read for the same past-due
      subscription; otherwise three days from the provider's date or the event's. */
  predicate PairFor(read: Option<Subscription>, at: int, value: PolarSubscription, row: Subscription) {
    if !value.status.PPastDue? then row.pastDueAt.None? && row.graceEndsAt.None?
    else if read.Some? && read.value.status == PastDue && read.value.subscriptionId == Some(value.id)
            && read.value.pastDueAt.Some? && read.value.graceEndsAt.Some?
    then StoredTime(read.value.pastDueAt, row.pastDueAt) && StoredTime(read.value.graceEndsAt, row.graceEndsAt)
    else
      var start := if value.pastDueAt.Some? then value.pastDueAt.value else at;
      StoredTime(Some(start), row.pastDueAt) && StoredTime(Some(start + 3 * DAY), row.graceEndsAt)
  }

  lemma WrittenRow(catalog: Catalog, read: Option<Subscription>, at: int, value: PolarSubscription)
    requires BuildRequest(catalog, read, at, value).Ok?
    ensures var row := Excluded(BuildRequest(catalog, read, at, value).value);
            WrittenAs(catalog, at, value, row) && PairFor(read, at, value, row)
  {
    CodeFor(catalog, value.productId);
  }

  // ------------------------------------------------------------------------ access

  /** The instants at which a value that the guard has admitted gives paid access,
      by provider status; the zero time as an end ends nothing, it denies. */
  predicate Gives(value: PolarSubscription, row: Subscription, now: int) {
    && value.periodStart <= now && value.periodEnd != ZERO_TIME
    && match value.status
       case PActive => now < value.periodEnd
       case PTrialing =>
         now < value.periodEnd
         && (value.trialEnd.Some? && value.trialEnd.value != ZERO_TIME ==> now < value.trialEnd.value)
       case PPastDue =>
         row.pastDueAt.Some? && row.graceEndsAt.Some? && row.pastDueAt.value <= now < row.graceEndsAt.value
       case _ => false
  }

  /** Access after an event: once the guard has admitted a value, paid access is given
      exactly so. In particular a canceled or unpaid value ends it at every instant,
      and an active one gives it exactly within its period. */
  lemma AccessAfterEvent(catalog: Catalog, row: Option<Subscription>, read: Option<Subscription>, at: int,
                         value: PolarSubscription, now: int)
    requires BuildRequest(catalog, read, at, value).Ok?
    requires var ex := Excluded(BuildRequest(catalog, read, at, value).value);
             row.Some? ==> Guard(row.value, ex).Holds()
    ensures var stored := After(row, Excluded(BuildRequest(catalog, read, at, value).value));
            && (Access.PaidAccessActive(Some(stored), now) <==> Gives(value, stored, now))
            && (value.status.PCanceled? || value.status.PUnpaid? ==> !Access.PaidAccessActive(Some(stored), now))
            && (value.status.PActive? && value.periodEnd != ZERO_TIME ==>
                  (Access.PaidAccessActive(Some(stored), now) <==> value.periodStart <= now < value.periodEnd))
            && WrittenAs(catalog, at, value, stored)
  {
    WrittenRow(catalog, read, at, value);
  }
}
