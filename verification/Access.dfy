/** The paid-access policy in its Go form and in the two SQL join conditions,
    and the metering window that `limits.Get` derives from it. */
module Access {
  import opened Sql
  import opened Subscriptions
  import opened Calendar

  /** `PaidAccessActive`. */
  predicate PaidAccessActive(sub: Option<Subscription>, now: int) {
    if sub.None? || sub.value.periodStart.None? || sub.value.periodEnd.None? then false
    else
      var s := sub.value;
      if now < s.periodStart.value || s.periodEnd.value <= s.periodStart.value then false
      else match s.status {
        case Active => now < s.periodEnd.value
        case Trialing =>
          now < s.periodEnd.value && (s.trialEndsAt.None? || now < s.trialEndsAt.value)
        case PastDue =>
          && s.pastDueAt.Some? && s.pastDueAt.value <= now
          && s.graceEndsAt.Some? && now < s.graceEndsAt.value
        case _ => false
      }
  }

  /** The status part of the join, shared text of both queries. */
  function PaidStatus(s: Subscription, now: Option<int>): Truth {
    Or(
      And(And(
            Or(Bool(s.status == Trialing), Bool(s.status == Active)),
            Lt(now, s.periodEnd)),
          Or(Or(Bool(s.status != Trialing), IsNull(s.trialEndsAt)), Lt(now, s.trialEndsAt))),
      And(And(Bool(s.status == PastDue), Le(s.pastDueAt, now)), Lt(now, s.graceEndsAt)))
  }

  /** ON condition of the subscriptions join in `GetEffectiveOrganizationEntitlement`. */
  function EntitlementJoin(s: Subscription, now: Option<int>): Truth {
    And(And(Le(s.periodStart, now), Lt(s.periodStart, s.periodEnd)), PaidStatus(s, now))
  }

  /** ON condition of the subscriptions join in `ListEffectiveRecordingRetention`. */
  function RetentionJoin(s: Subscription, now: Option<int>): Truth {
    And(Le(s.periodStart, now), And(Lt(s.periodStart, s.periodEnd), PaidStatus(s, now)))
  }

  /** The plan a LEFT JOIN delivers for the organization's at most one row. */
  function JoinedPlan(sub: Option<Subscription>, on: Subscription -> Truth): Option<nat> {
    if sub.Some? && on(sub.value).Holds() then Some(sub.value.planId) else None
  }

  /** One policy, three forms. For every row, with any column NULL, and every
      instant, the entitlement join delivers the plan exactly when Go grants paid
      access, ... */
  lemma EntitlementPolicy(sub: Option<Subscription>, now: int)
    ensures JoinedPlan(sub, s => EntitlementJoin(s, Some(now)))
            == (if PaidAccessActive(sub, now) then Some(sub.value.planId) else None)
  {
  }

  /** ... and so does the retention join. */
  lemma RetentionPolicy(sub: Option<Subscription>, now: int)
    ensures JoinedPlan(sub, s => RetentionJoin(s, Some(now)))
            == (if PaidAccessActive(sub, now) then Some(sub.value.planId) else None)
  {
  }

  /** The period over which `limits.Get` measures usage. */
  ghost function Window(sub: Option<Subscription>, now: int): (int, int) {
    if PaidAccessActive(sub, now) then
      var end := sub.value.periodEnd.value;
      (sub.value.periodStart.value,
       if sub.value.status.PastDue? && end < sub.value.graceEndsAt.value
       then sub.value.graceEndsAt.value else end)
    else
      CalendarMonth(now)
  }

  /** The window always contains the instant it was asked about, also in grace
      beyond the paid period and in the free calendar month. */
  lemma WindowContainsNow(sub: Option<Subscription>, now: int)
    ensures Window(sub, now).0 <= now < Window(sub, now).1
  {
    CalendarMonthContains(now);
  }

  /** All instants of paid access have one window and lie in it; it begins with the
      period, and ends with it or, past due, with the later end of the grace. */
  lemma PaidWindow(sub: Option<Subscription>, now: int, other: int)
    requires PaidAccessActive(sub, now)
    ensures Window(sub, now).0 == sub.value.periodStart.value
    ensures Window(sub, now).1 == if sub.value.status == PastDue
                                  then Max(sub.value.periodEnd.value, sub.value.graceEndsAt.value)
                                  else sub.value.periodEnd.value
    ensures PaidAccessActive(sub, other) ==>
              Window(sub, other) == Window(sub, now) && Window(sub, now).0 <= other < Window(sub, now).1
  {
  }

  /** The free-plan windows tile time: asking from anywhere inside a month gives
      the same window, and the next one starts where it ends. */
  lemma FreeWindowsTile(sub: Option<Subscription>, now: int, later: int)
    requires !PaidAccessActive(sub, now) && !PaidAccessActive(sub, later)
    requires Window(sub, now).0 <= later
    ensures later < Window(sub, now).1 ==> Window(sub, later) == Window(sub, now)
    ensures later == Window(sub, now).1 ==> Window(sub, later).0 == later
  {
    CalendarMonthsTile(now, later);
  }
}
