/** The drivers on top of the inbox tables: `Consumer.Handle`, recovery inside the
    transaction, `process`, and `WebhookJob.RunOnce`, with every other actor
    interleaved between their statements. */
module BillingWorker {
  import opened Sql
  import opened Subscriptions
  import opened Polar
  import opened Register
  import opened Inbox
  import opened InboxTheorems
  import opened Translation
  import opened BillingStore
  import InboxOutcomes
  import Recovery

  /** A stored payload, decoded as far as `Handle` looks at it. */
  datatype Payload =
    | Undecodable
    | SubscriptionEvent(at: int, value: Option<PolarSubscription>, productNamed: bool)
    | CustomerStateChanged(readable: bool, organization: Option<nat>)
    | OtherEvent

  /** What the outside answers: the payload of each receipt, the provider, the
      clock, and the fate of the commit. */
  datatype World = World(
    payload: nat -> Payload,
    observedAt: int,
    state: Result<Recovery.CustomerState, Recovery.ProviderError>,
    fetch: string -> Result<PolarSubscription, Recovery.ProviderError>,
    outcome: CommitOutcome)

  /** What `Handle` answers; an error with whether it is permanent. */
  datatype Answer = Handled(ignored: bool) | HandlerError(permanent: bool)

  ghost predicate ByOthers(env: nat -> seq<Event>, w: nat) {
    forall k, e :: e in env(k) ==> Actor(e) != Some(w)
  }

  /** If nobody else has been in a transaction, nobody is. */
  twostate predicate Calm(store: Store, w: nat)
    reads store
  {
    old(store.Alone(w)) ==> store.Alone(w)
  }

  /** Nobody else does anything. */
  ghost predicate Quiet(env: nat -> seq<Event>) {
    forall k :: env(k) == []
  }

  /** The provider can be reached. */
  ghost predicate ProviderUp(world: World) {
    world.state.Ok? && forall id :: world.fetch(id).Ok?
  }

  /** The worker still acts for the receipt and the lease that it did. */
  twostate predicate SameClaim(store: Store, w: nat)
    reads store
  {
    old(!store.PhaseOf(w).Idle?) && !store.PhaseOf(w).Idle?
    && store.PhaseOf(w).lease == old(store.PhaseOf(w).lease) && store.PhaseOf(w).id == old(store.PhaseOf(w).id)
  }

  /** A call inside the transaction: nothing is undone, and the worker is still in
      the transaction, or has failed for good. */
  twostate predicate Inside(store: Store, w: nat)
    requires old(store.PhaseOf(w).InTx?)
    reads store
  {
    && store.Valid()
    && old(store.history) <= store.history && old(store.leases) <= store.leases
    && (store.PhaseOf(w).InTx? || (store.PhaseOf(w).Failing? && store.PhaseOf(w).permanent))
    && SameClaim(store, w)
  }

  /** The read of `syncPolarSubscription`, and what others do after it. */
  method ReadFirst(store: Store, w: nat, value: PolarSubscription, others: seq<Event>)
    requires store.Valid() && store.PhaseOf(w).InTx?
    requires forall e <- others :: Actor(e) != Some(w)
    modifies store
    ensures Inside(store, w) && store.PhaseOf(w) == old(store.PhaseOf(w))
    ensures others == [] ==> Calm(store, w)
    ensures value.status.PPastDue? && value.organization.Some? ==>
              WorkerOf(store.Snapshot(), w).read
              == Some((value.organization.value, RowOf(old(store.Visible(w)), value.organization.value)))
  {
    if value.status.PPastDue? && value.organization.Some? {
      store.ReadSubscription(w, value.organization.value);
    }
    store.Others(others, w);
  }

  /** The organization's row among the rows seen. */
  function SeenRow(rows: Rows, organization: Option<nat>): Option<Subscription> {
    if organization.Some? then RowOf(rows, organization.value) else None
  }

  /** The pair does not depend on the row unless the value is past due. */
  lemma AddsWithAny(catalog: Catalog, read: Option<Subscription>, other: Option<Subscription>, at: int,
                    value: PolarSubscription, before: seq<Write>, after: seq<Write>)
    requires Adds(catalog, read, at, value, before, after) && (value.status.PPastDue? ==> other == read)
    ensures Adds(catalog, other, at, value, before, after)
  {
    var write :| ProviderWrite(catalog, read, at, value, write) && after == before + [write];
    assert ProviderWrite(catalog, other, at, value, write);
  }

  /** `syncPolarSubscription`. Without an error exactly this value's write has been
      staged, with the grace pair that the row seen at first calls for; with one, none.
      The error is permanent if and only if the value does not translate. */
  method SyncSubscription(store: Store, w: nat, at: int, value: PolarSubscription, others: seq<Event>)
    returns (error: Option<bool>)
    requires store.Valid() && store.PhaseOf(w).InTx?
    requires forall e <- others :: Actor(e) != Some(w)
    modifies store
    ensures Inside(store, w)
    ensures error.None? ==>
              && store.PhaseOf(w).InTx? && Translates(store.catalog, at, value)
              && Adds(store.catalog, SeenRow(old(store.Visible(w)), value.organization), at, value,
                      old(store.PhaseOf(w)).tx.staged, store.PhaseOf(w).tx.staged)
    ensures error.Some? && !error.value ==>
              store.PhaseOf(w) == old(store.PhaseOf(w)) && Translates(store.catalog, at, value)
    ensures others == [] ==> Calm(store, w) && (old(store.Alone(w)) && error.Some? ==> error.value)
    ensures error.Some? && error.value ==>
              store.PhaseOf(w).Failing? && !Translates(store.catalog, at, value)
  {
    ghost var seen := SeenRow(store.Visible(w), value.organization);
    ReadFirst(store, w, value, others);
    ghost var before := store.PhaseOf(w).tx.staged;
    ghost var read := store.LastRead(w, value.organization);
    var done := store.SyncInTransaction(w, at, value);
    if done {
      AddsWithAny(store.catalog, read, seen, at, value, before, store.PhaseOf(w).tx.staged);
    }
    error := if done then None else Some(store.PhaseOf(w).Failing?);
  }

  // --------------------------------------------------------------------- recovery

  function SourceOf(catalog: Catalog, organization: nat, world: World): Recovery.Source {
    Recovery.Source(catalog, organization, world.observedAt, world.fetch)
  }

  ghost predicate Made(src: Recovery.Source, id: string, write: Write) {
    write.organization == src.organization && Recovery.MadeFrom(src, id, write.row)
  }

  /** These writes are of the fetched subscriptions of these ids, in this order. */
  ghost predicate AllMade(src: Recovery.Source, writes: seq<Write>, ids: seq<string>) {
    |writes| == |ids| && forall k | 0 <= k < |ids| :: Made(src, ids[k], writes[k])
  }

  /** Since then the worker has written just those. */
  ghost predicate Staged(src: Recovery.Source, before: seq<Write>, after: seq<Write>, ids: seq<string>) {
    before <= after && AllMade(src, after[|before|..], ids)
  }

  lemma StagedNone(src: Recovery.Source, before: seq<Write>)
    ensures Staged(src, before, before, [])
  {
    assert before[|before|..] == [];
  }

  /** Syncing a fetched subscription stages its write. */
  lemma StagedOne(src: Recovery.Source, before: seq<Write>, after: seq<Write>, id: string,
                  read: Option<Subscription>)
    requires src.fetch(id).Ok? && src.fetch(id).value.organization == Some(src.organization)
    requires var value := src.fetch(id).value;
             Adds(src.catalog, read, Recovery.Timestamp(value, src.observedAt), value, before, after)
    ensures Staged(src, before, after, [id])
  {
    var value := src.fetch(id).value;
    var write: Write :|
      ProviderWrite(src.catalog, read, Recovery.Timestamp(value, src.observedAt), value, write)
      && after == before + [write];
    assert Made(src, id, write);
    assert after[|before|..] == [write];
  }

  lemma MadeTwo(src: Recovery.Source, x: seq<Write>, y: seq<Write>, first: seq<string>, second: seq<string>)
    requires AllMade(src, x, first) && AllMade(src, y, second)
    ensures AllMade(src, x + y, first + second)
  {
    forall k | 0 <= k < |first + second| ensures Made(src, (first + second)[k], (x + y)[k]) {
      if k >= |first| {
        var i := k - |first|;
        assert Made(src, second[i], y[i]);
      }
    }
  }

  lemma StagedTwo(src: Recovery.Source, a: seq<Write>, b: seq<Write>, c: seq<Write>, first: seq<string>,
                  second: seq<string>)
    requires Staged(src, a, b, first) && Staged(src, b, c, second)
    ensures Staged(src, a, c, first + second)
  {
    MadeTwo(src, b[|a|..], c[|b|..], first, second);
    assert c[|a|..] == b[|a|..] + c[|b|..];
  }

  /** The first part of `RecoverOrganization`: retire or refresh the subscription
      known locally. `more` tells that the candidate is to be synced next. */
  method RefreshKnown(store: Store, w: nat, src: Recovery.Source, known: Subscription, candidate: Option<string>,
                      customer: Recovery.CustomerState, others: seq<Event>)
    returns (error: Option<bool>, more: bool)
    requires store.Valid() && store.PhaseOf(w).InTx? && known.subscriptionId.Some? && src.catalog == store.catalog
    requires forall e <- others :: Actor(e) != Some(w)
    modifies store
    ensures Inside(store, w)
    ensures error.None? ==>
              && store.PhaseOf(w).InTx?
              && Recovery.Refreshable(src, known, customer)
              && Staged(src, old(store.PhaseOf(w)).tx.staged, store.PhaseOf(w).tx.staged, [known.subscriptionId.value])
              && var value := src.fetch(known.subscriptionId.value).value;
              && (more <==> candidate.Some? && candidate.value != value.id)
              && (more ==> value.status.PCanceled?)
    ensures error.Some? && error.value ==>
              || !Recovery.Refreshable(src, known, customer)
              || (candidate.Some? && var value := src.fetch(known.subscriptionId.value).value;
                                     candidate.value != value.id && !value.status.PCanceled?)
    ensures store.PhaseOf(w).Failing? ==> error.Some? && error.value
    ensures more ==> error.None?
    ensures others == [] ==> Calm(store, w)
    ensures others == [] && old(store.Alone(w)) && src.fetch(known.subscriptionId.value).Ok? ==>
              error.Some? ==> error.value
  {
    more := false;
    var id := known.subscriptionId.value;
    var fetched := src.fetch(id);
    if fetched.Err? {
      return Some(false), false;
    }
    var value := fetched.value;
    if value.organization != Some(src.organization) || value.customerId != customer.customerId
       || known.customerId != Some(value.customerId) {
      return Some(true), false;
    }
    ghost var seen, before := SeenRow(store.Visible(w), value.organization), store.PhaseOf(w).tx.staged;
    error := SyncSubscription(store, w, Recovery.Timestamp(value, src.observedAt), value, others);
    if error.None? {
      StagedOne(src, before, store.PhaseOf(w).tx.staged, id, seen);
    }
    if error.Some? || candidate.None? || candidate.value == value.id {
      return;
    }
    if !value.status.PCanceled? {
      return Some(true), false;
    }
    more := true;
  }

  /** The last part of `RecoverOrganization`: fetch, check and sync the candidate. */
  method SyncCandidate(store: Store, w: nat, src: Recovery.Source, candidate: string,
                       customer: Recovery.CustomerState, others: seq<Event>)
    returns (error: Option<bool>)
    requires store.Valid() && store.PhaseOf(w).InTx? && src.catalog == store.catalog
    requires forall e <- others :: Actor(e) != Some(w)
    modifies store
    ensures Inside(store, w)
    ensures error.None? ==>
              && store.PhaseOf(w).InTx?
              && Recovery.Adoptable(src, candidate, customer)
              && Staged(src, old(store.PhaseOf(w)).tx.staged, store.PhaseOf(w).tx.staged, [candidate])
    ensures error.Some? && error.value ==> !Recovery.Adoptable(src, candidate, customer)
    ensures store.PhaseOf(w).Failing? ==> error.Some? && error.value
    ensures others == [] ==> Calm(store, w)
    ensures others == [] && old(store.Alone(w)) && src.fetch(candidate).Ok? && error.Some? ==> error.value
  {
    var fetched := src.fetch(candidate);
    if fetched.Err? {
      return Some(false);
    }
    var value := fetched.value;
    if value.id != candidate || value.customerId != customer.customerId
       || value.organization != Some(src.organization) {
      return Some(true);
    }
    ghost var seen, before := SeenRow(store.Visible(w), value.organization), store.PhaseOf(w).tx.staged;
    error := SyncSubscription(store, w, Recovery.Timestamp(value, src.observedAt), value, others);
    if error.None? {
      StagedOne(src, before, store.PhaseOf(w).tx.staged, candidate, seen);
    }
  }

  /** There was nothing to complain about, and what is to be written has been. */
  ghost predicate Recovers(src: Recovery.Source, existing: Option<Subscription>,
                           state: Result<Recovery.CustomerState, Recovery.ProviderError>,
                           before: seq<Write>, after: seq<Write>)
  {
    && Recovery.Recoverable(src, existing, state)
    && exists ids :: Recovery.Complete(src, existing, state, ids) && Staged(src, before, after, ids)
  }

  /** `RecoverOrganization` once the candidate is known. */
  method RefreshAndAdopt(store: Store, w: nat, src: Recovery.Source, existing: Option<Subscription>,
                         candidate: Option<string>, customer: Recovery.CustomerState, env: nat -> seq<Event>)
    returns (error: Option<bool>)
    requires store.Valid() && store.PhaseOf(w).InTx? && ByOthers(env, w) && src.catalog == store.catalog
    modifies store
    ensures Inside(store, w)
    ensures error.None? ==>
              && store.PhaseOf(w).InTx?
              && Recovery.Feasible(src, existing, customer, candidate)
              && Staged(src, old(store.PhaseOf(w)).tx.staged, store.PhaseOf(w).tx.staged,
                        Recovery.Planned(src, existing, candidate))
    ensures error.Some? && error.value ==> !Recovery.Feasible(src, existing, customer, candidate)
    ensures store.PhaseOf(w).Failing? ==> error.Some? && error.value
    ensures Quiet(env) ==> Calm(store, w)
    ensures Quiet(env) && old(store.Alone(w)) && (forall id :: src.fetch(id).Ok?) && error.Some? ==> error.value
  {
    error := None;
    ghost var before, own := store.PhaseOf(w).tx.staged, [];
    StagedNone(src, before);
    if existing.Some? && existing.value.subscriptionId.Some? && existing.value.provider == Some(POLAR) {
      var more;
      error, more := RefreshKnown(store, w, src, existing.value, candidate, customer, env(0));
      own := [existing.value.subscriptionId.value];
      if !more {
        return;
      }
    }
    if candidate.None? {
      return;
    }
    ghost var between := store.PhaseOf(w).tx.staged;
    error := SyncCandidate(store, w, src, candidate.value, customer, env(1));
    if error.None? {
      StagedTwo(src, before, between, store.PhaseOf(w).tx.staged, own, [candidate.value]);
    }
  }

  /** `RecoverOrganization` in the transaction: the same calls as outside it. Without
      an error it had nothing to complain about and has written the known subscription
      and the listed one, as fetched; the error is permanent only if it had. */
  method RecoverInTransaction(store: Store, w: nat, organization: nat, world: World, env: nat -> seq<Event>)
    returns (error: Option<bool>)
    requires store.Valid() && store.PhaseOf(w).InTx? && ByOthers(env, w)
    modifies store
    ensures Inside(store, w)
    ensures error.None? ==>
              && store.PhaseOf(w).InTx?
              && Recovers(SourceOf(store.catalog, organization, world), RowOf(old(store.Visible(w)), organization),
                          world.state, old(store.PhaseOf(w)).tx.staged, store.PhaseOf(w).tx.staged)
    ensures error.Some? && error.value ==>
              !Recovery.Recoverable(SourceOf(store.catalog, organization, world),
                                    RowOf(old(store.Visible(w)), organization), world.state)
    ensures store.PhaseOf(w).Failing? ==> error.Some? && error.value
    ensures Quiet(env) ==> Calm(store, w)
    ensures Quiet(env) && old(store.Alone(w)) && ProviderUp(world) && error.Some? ==> error.value
  {
    var src := SourceOf(store.catalog, organization, world);
    ghost var before := store.PhaseOf(w).tx.staged;
    StagedNone(src, before);
    var existing := RowOf(store.Visible(w), organization);
    store.ReadSubscription(w, organization);
    if world.state.Err? {
      return if world.state.error == Recovery.NotFound && existing.None? then None else Some(false);
    }
    var customer := world.state.value;
    var found := Recovery.FindCandidate(store.catalog, customer.active);
    if found.Err? {
      return Some(true);
    }
    var candidate := found.value;
    Recovery.OnlyCandidate(store.catalog, customer.active, candidate);
    Recovery.FeasibleMeans(src, existing, customer, candidate);
    error := RefreshAndAdopt(store, w, src, existing, candidate, customer, env);
  }

  // ----------------------------------------------------------------------- events

  /** The product is configured for one of the plans. */
  predicate Sold(catalog: Catalog, product: string) {
    Configured(catalog, "developer", product) || Configured(catalog, "pro", product)
    || Configured(catalog, "scale", product)
  }

  /** An event that should have an effect: a subscription event about a product that is
      sold here, or news of an organization's customer. */
  predicate Concerns(catalog: Catalog, p: Payload) {
    || (p.SubscriptionEvent? && p.value.Some? && p.productNamed && Sold(catalog, p.value.value.productId))
    || (p.CustomerStateChanged? && p.readable && p.organization.Some? && p.organization.value != NIL)
  }

  /** An event that cannot be decoded or names no product. */
  predicate Malformed(p: Payload) {
    || p.Undecodable?
    || (p.SubscriptionEvent? && (p.value.None? || !p.productNamed))
    || (p.CustomerStateChanged? && !p.readable)
  }

  /** The writes that are this event's effect, given the rows seen at its start. */
  ghost predicate EffectOf(catalog: Catalog, rows: Rows, world: World, p: Payload,
                           before: seq<Write>, after: seq<Write>)
    requires Concerns(catalog, p)
  {
    if p.SubscriptionEvent? then
      var value := p.value.value;
      Translates(catalog, p.at, value) && Adds(catalog, SeenRow(rows, value.organization), p.at, value, before, after)
    else
      Recovers(SourceOf(catalog, p.organization.value, world), RowOf(rows, p.organization.value), world.state,
               before, after)
  }

  /** No retry can give this event its effect, from these rows. */
  ghost predicate Hopeless(catalog: Catalog, rows: Rows, world: World, p: Payload) {
    || Malformed(p)
    || (Concerns(catalog, p) &&
        if p.SubscriptionEvent? then !Translates(catalog, p.at, p.value.value)
        else !Recovery.Recoverable(SourceOf(catalog, p.organization.value, world),
                                   RowOf(rows, p.organization.value), world.state))
  }

  /** `Consumer.Handle`: an event that should have an effect has exactly that staged,
      one that should have none is ignored, unless there is an error; and the error is
      permanent only for a hopeless event. */
  method Handle(store: Store, w: nat, payload: Payload, world: World, env: nat -> seq<Event>)
    returns (answer: Answer)
    requires store.Valid() && store.PhaseOf(w).InTx? && ByOthers(env, w)
    modifies store
    ensures Inside(store, w)
    ensures answer.Handled? ==>
              && store.PhaseOf(w).InTx? && !Malformed(payload)
              && (answer.ignored <==> !Concerns(store.catalog, payload))
              && (answer.ignored ==> store.PhaseOf(w).tx == old(store.PhaseOf(w)).tx)
              && (!answer.ignored ==>
                    EffectOf(store.catalog, old(store.Visible(w)), world, payload,
                             old(store.PhaseOf(w)).tx.staged, store.PhaseOf(w).tx.staged))
    ensures Malformed(payload) ==> answer == HandlerError(true)
    ensures answer == HandlerError(true) ==> Hopeless(store.catalog, old(store.Visible(w)), world, payload)
    ensures answer.HandlerError? && store.PhaseOf(w).Failing? ==> answer.permanent
    ensures Quiet(env) ==> Calm(store, w)
    ensures Quiet(env) && old(store.Alone(w)) && (payload.CustomerStateChanged? ==> ProviderUp(world)) ==>
              answer.HandlerError? ==> answer.permanent
  {
    match payload {
      case Undecodable => return HandlerError(true);
      case SubscriptionEvent(at, value, productNamed) =>
        if value.None? || !productNamed {
          return HandlerError(true);
        }
        CodeFor(store.catalog, value.value.productId);
        var code := PlanCodeFromProduct(store.catalog, value.value.productId);
        if code.Err? {
          return Handled(true);
        }
        var error := SyncSubscription(store, w, at, value.value, env(0));
        answer := if error.Some? then HandlerError(error.value) else Handled(false);
      case CustomerStateChanged(readable, organization) =>
        if !readable {
          return HandlerError(true);
        }
        if organization.None? || organization.value == NIL {
          return Handled(true);
        }
        var error := RecoverInTransaction(store, w, organization.value, world, env);
        answer := if error.Some? then HandlerError(error.value) else Handled(false);
      case OtherEvent => return Handled(true);
    }
  }

  /** The effect of a receipt's event is in the log, committed with the receipt. */
  ghost predicate EffectCommitted(catalog: Catalog, world: World, log: seq<Commitment>, id: nat)
    requires Concerns(catalog, world.payload(id))
  {
    exists rows: Rows, writes: seq<Write> ::
      EffectOf(catalog, rows, world, world.payload(id), [], writes) && Commitment(Some(id), writes) in log
  }

  /** Some rows made the event hopeless. */
  ghost predicate FoundHopeless(catalog: Catalog, world: World, id: nat) {
    exists rows: Rows :: Hopeless(catalog, rows, world, world.payload(id))
  }

  /** The receipt is processed, or ignored if its event should have no effect. */
  predicate EndedAs(receipts: map<nat, Receipt>, id: nat, ignored: bool) {
    id in receipts && receipts[id].status == if ignored then Ignored else Processed
  }

  /** Complete in the transaction, and what others do before the commit. */
  method CompleteAndWait(store: Store, w: nat, ignored: bool, others: seq<Event>)
    requires store.Valid() && store.PhaseOf(w).InTx? && (ignored ==> store.PhaseOf(w).tx.staged == [])
    requires forall e <- others :: Actor(e) != Some(w)
    modifies store
    ensures store.Valid() && old(store.history) <= store.history && old(store.leases) <= store.leases
    ensures var p := old(store.PhaseOf(w));
            store.PhaseOf(w) == Completing(p.id, p.lease, p.attempts, p.tx, ignored)
    ensures others == [] ==> Calm(store, w)
  {
    store.CompleteEvent(w, ignored);
    store.Others(others, w);
  }

  /** Complete and commit what `Handle` has done. */
  method FinishTransaction(store: Store, w: nat, ignored: bool, outcome: CommitOutcome, others: seq<Event>)
    returns (failed: bool)
    requires store.Valid() && store.PhaseOf(w).InTx? && (ignored ==> store.PhaseOf(w).tx.staged == [])
    requires forall e <- others :: Actor(e) != Some(w)
    modifies store
    ensures store.Valid() && old(store.history) <= store.history && old(store.leases) <= store.leases
    ensures !failed ==> store.PhaseOf(w).Idle? && LeaseGone(store.Snapshot(), old(store.PhaseOf(w)).lease)
    ensures !failed ==> EndedAs(store.receipts, old(store.PhaseOf(w)).id, ignored)
    ensures !failed && !ignored ==>
              Commitment(Some(old(store.PhaseOf(w)).id), old(store.PhaseOf(w)).tx.staged) in store.log
    ensures failed ==> store.PhaseOf(w).Failing? && !store.PhaseOf(w).permanent
    ensures failed ==> SameClaim(store, w)
    ensures failed <==> !outcome.Acknowledged?
  {
    CompleteAndWait(store, w, ignored, others);
    if outcome.Undone? {
      store.Rollback(w, false);
      return true;
    }
    store.CommitTransaction(w, outcome.Acknowledged?);
    failed := !outcome.Acknowledged?;
  }

  /** Nobody else acts, the commit is acknowledged, and the provider, where it is
      asked, can be reached. */
  ghost predicate Undisturbed(world: World, id: nat, env: nat -> seq<Event>) {
    Quiet(env) && world.outcome.Acknowledged? && (world.payload(id).CustomerStateChanged? ==> ProviderUp(world))
  }

  /** `process` once the row is locked: handle, complete, commit. */
  method HandleLocked(store: Store, w: nat, world: World, env: nat -> seq<Event>) returns (error: Option<bool>)
    requires store.Valid() && store.PhaseOf(w).InTx? && store.PhaseOf(w).tx.staged == [] && ByOthers(env, w)
    modifies store
    ensures store.Valid() && old(store.history) <= store.history && old(store.leases) <= store.leases
    ensures error.None? ==> store.PhaseOf(w).Idle? && LeaseGone(store.Snapshot(), old(store.PhaseOf(w)).lease)
    ensures var id := old(store.PhaseOf(w)).id;
            && (error.None? ==>
                  && !Malformed(world.payload(id))
                  && EndedAs(store.receipts, id, !Concerns(store.catalog, world.payload(id))))
            && (error.None? && Concerns(store.catalog, world.payload(id)) ==>
                  EffectCommitted(store.catalog, world, store.log, id))
            && (Malformed(world.payload(id)) ==> error == Some(true))
            && (error == Some(true) ==> FoundHopeless(store.catalog, world, id))
    ensures error.Some? ==>
              store.PhaseOf(w).Failing? && store.PhaseOf(w).permanent == error.value && SameClaim(store, w)
    ensures Undisturbed(world, old(store.PhaseOf(w)).id, env) && old(store.Alone(w)) && error.Some? ==> error.value
  {
    ghost var rows := store.Visible(w);
    var answer := Handle(store, w, world.payload(store.PhaseOf(w).id), world, (k: nat) => env(k + 2));
    if answer.HandlerError? {
      if store.PhaseOf(w).InTx? {
        store.Rollback(w, answer.permanent);
      }
      return Some(answer.permanent);
    }
    store.Others(env(0), w);
    var failed := FinishTransaction(store, w, answer.ignored, world.outcome, env(1));
    error := if failed then Some(false) else None;
  }

  /** The start of `process`: lock the claimed row, or give up waiting for it. */
  method LockRow(store: Store, w: nat)
    requires store.Valid() && store.PhaseOf(w).Holding?
    modifies store
    ensures store.Valid() && old(store.history) <= store.history && old(store.leases) <= store.leases
    ensures store.PhaseOf(w).Idle? ==> LeaseGone(store.Snapshot(), old(store.PhaseOf(w).lease))
    ensures store.PhaseOf(w).Idle?
            || ((store.PhaseOf(w).Failing? || store.PhaseOf(w).InTx?) && SameClaim(store, w))
    ensures store.PhaseOf(w).InTx? ==> store.PhaseOf(w).tx.staged == []
    ensures store.PhaseOf(w).Failing? ==> !store.PhaseOf(w).permanent
    ensures Calm(store, w)
    ensures old(store.Alone(w)) && !old(LeaseGone(store.Snapshot(), store.PhaseOf(w).lease)) ==> store.PhaseOf(w).InTx?
  {
    store.LockClaimed(w);
    if store.PhaseOf(w).Holding? {
      // The statement gave up waiting for the row.
      store.Rollback(w, false);
    }
  }

  /** `process`. `error` tells, if there is one, whether `fail` must treat it as
      permanent; `lost` that the row no longer carried the lease. */
  method Process(store: Store, w: nat, world: World, env: nat -> seq<Event>)
    returns (error: Option<bool>, lost: bool)
    requires store.Valid() && store.PhaseOf(w).Holding? && ByOthers(env, w)
    modifies store
    ensures store.Valid() && old(store.history) <= store.history && old(store.leases) <= store.leases
    ensures error.None? ==> store.PhaseOf(w).Idle? && LeaseGone(store.Snapshot(), old(store.PhaseOf(w)).lease)
    ensures var id := old(store.PhaseOf(w)).id;
            && (error.None? && !lost ==>
                  && !Malformed(world.payload(id))
                  && EndedAs(store.receipts, id, !Concerns(store.catalog, world.payload(id))))
            && (error.None? && !lost && Concerns(store.catalog, world.payload(id)) ==>
                  EffectCommitted(store.catalog, world, store.log, id))
            && (error == Some(true) ==> FoundHopeless(store.catalog, world, id))
    ensures error.Some? ==>
              store.PhaseOf(w).Failing? && store.PhaseOf(w).permanent == error.value && SameClaim(store, w)
    ensures lost ==> error.None?
    ensures Undisturbed(world, old(store.PhaseOf(w)).id, env) && old(store.Alone(w)) ==>
              || old(LeaseGone(store.Snapshot(), store.PhaseOf(w).lease))
              || (!lost && (error.Some? ==> error.value))
  {
    LockRow(store, w);
    if store.PhaseOf(w).Idle? {
      return None, true;
    }
    if store.PhaseOf(w).Failing? {
      return Some(false), false;
    }
    error := HandleLocked(store, w, world, env);
    lost := false;
  }

  /** The reaper has run since then. */
  ghost predicate Reaps(history: seq<Event>, since: nat) {
    exists k | since <= k < |history| :: history[k] == Reap
  }

  lemma ReapsAt(history: seq<Event>, since: nat, at: nat)
    requires since <= at < |history| && history[at] == Reap
    ensures Reaps(history, since)
  {
  }

  lemma ReapsStill(history: seq<Event>, later: seq<Event>, since: nat)
    requires Reaps(history, since) && history <= later
    ensures Reaps(later, since)
  {
    var k :| since <= k < |history| && history[k] == Reap;
    assert later[k] == Reap;
  }

  /** The reaper's statement, with others before and after it. */
  method ReapFirst(store: Store, w: nat, lease: nat, env: nat -> seq<Event>)
    requires store.Valid() && store.PhaseOf(w).Idle? && lease !in store.leases && ByOthers(env, w)
    requires forall k, e :: e in env(k) && e.Claim? ==> e.lease != lease
    modifies store
    ensures store.Valid() && old(store.history) <= store.history
    ensures store.PhaseOf(w).Idle? && lease !in store.leases
    ensures Reaps(store.history, |old(store.history)|)
    ensures Quiet(env) ==> Calm(store, w)
  {
    LeaseStaysFresh(store.Snapshot(), env(0), lease);
    store.Others(env(0), w);
    ghost var before := store.history;
    store.ReapExhausted();
    LeaseStaysFresh(store.Snapshot(), env(1), lease);
    store.Others(env(1), w);
    ReapsAt(store.history, |old(store.history)|, |before|);
  }

  /** The start of `RunOnce`: reap, then claim under a new lease. */
  method ReapAndClaim(store: Store, w: nat, lease: nat, env: nat -> seq<Event>) returns (claimed: Option<nat>)
    requires store.Valid() && store.PhaseOf(w).Idle? && lease !in store.leases && ByOthers(env, w)
    requires forall k, e :: e in env(k) && e.Claim? ==> e.lease != lease
    modifies store
    ensures store.Valid() && old(store.history) <= store.history
    ensures claimed.None? ==> store.PhaseOf(w).Idle? && lease !in store.leases
    ensures claimed.None? ==>
              forall id <- store.receipts ::
                !InboxOutcomes.Due(store.receipts[id], store.now) || InboxOutcomes.Locked(store.Snapshot(), id)
    ensures claimed.Some? ==>
              && store.PhaseOf(w).Holding? && store.PhaseOf(w).lease == lease
              && store.PhaseOf(w).id == claimed.value && lease in store.leases
    ensures Quiet(env) ==> Calm(store, w)
    ensures claimed.Some? ==> !LeaseGone(store.Snapshot(), lease)
    ensures Reaps(store.history, |old(store.history)|)
  {
    ReapFirst(store, w, lease, env);
    ghost var reaped := store.history;
    claimed := store.ClaimEvent(w, lease);
    ReapsStill(reaped, store.history, |old(store.history)|);
  }

  lemma StopLeavesLocked(s: State, w: nat, id: nat)
    requires Held(s, id) && WorkerOf(s, w).phase.Failing?
    ensures InboxOutcomes.Locked(Next(s, Crash(w)), id)
  {
    var v :| v in s.workers && s.workers[v].phase.Open() && s.workers[v].phase.id == id;
    assert Next(s, Crash(w)).workers[v] == s.workers[v];
  }

  /** The end of `RunOnce` after an error. `recorded` tells that the receipt has been
      given up or scheduled again; it has not where the lease was gone or its row locked. */
  method ScheduleRetry(store: Store, w: nat, others: seq<Event>) returns (recorded: bool)
    requires store.Valid() && store.PhaseOf(w).Failing?
    requires forall e <- others :: Actor(e) != Some(w)
    modifies store
    ensures store.Valid() && old(store.history) <= store.history && old(store.leases) <= store.leases
    ensures store.PhaseOf(w).Idle?
    ensures var p := old(store.PhaseOf(w));
            if recorded then
              p.id in store.receipts && InboxOutcomes.FailedRow(store.receipts[p.id], p.permanent, store.now)
            else LeaseGone(store.Snapshot(), p.lease) || InboxOutcomes.Locked(store.Snapshot(), p.id)
  {
    store.Others(others, w);
    recorded := store.FailEvent(w);
    if store.PhaseOf(w).Failing? {
      // The statement gave up waiting for the row: the lease is left to expire.
      StopLeavesLocked(store.Snapshot(), w, store.PhaseOf(w).id);
      store.Stop(w);
    }
  }

  /** `RunOnce`: reap, claim, process, and schedule a retry on error. Whatever the
      others do in between, the tables stay in a state of some run. When it claimed
      a receipt and reports no error, its lease no longer exists, and the effect of
      the event was committed with the receipt, unless the receipt had been taken
      over from it before it could lock the row. When it reports an error, the receipt
      is given up if the error is permanent, which it is only for a hopeless event, or
      the eighth attempt was made, and waits for its retry otherwise. Undisturbed it never
      loses a receipt and fails only for a hopeless event. */
  method RunOnce(store: Store, w: nat, lease: nat, world: World, env: nat -> seq<Event>)
    returns (claimed: Option<nat>, error: Option<bool>, lost: bool, recorded: bool)
    requires store.Valid() && store.PhaseOf(w).Idle? && lease !in store.leases && ByOthers(env, w)
    requires forall k, e :: e in env(k) && e.Claim? ==> e.lease != lease
    modifies store
    ensures store.Valid() && old(store.history) <= store.history
    ensures store.PhaseOf(w).Idle?
    ensures Reaps(store.history, |old(store.history)|)
    ensures claimed.None? ==> error.None? && lease !in store.leases
    ensures claimed.None? ==>
              forall id <- store.receipts ::
                !InboxOutcomes.Due(store.receipts[id], store.now) || InboxOutcomes.Locked(store.Snapshot(), id)
    ensures claimed.Some? ==> lease in store.leases
    ensures claimed.Some? && error.None? ==> LeaseGone(store.Snapshot(), lease)
    ensures claimed.Some? && error.None? && !lost ==>
              && !Malformed(world.payload(claimed.value))
              && EndedAs(store.receipts, claimed.value, !Concerns(store.catalog, world.payload(claimed.value)))
              && (Concerns(store.catalog, world.payload(claimed.value)) ==>
                    EffectCommitted(store.catalog, world, store.log, claimed.value))
    ensures claimed.Some? && error.Some? ==>
              && (error.value ==> FoundHopeless(store.catalog, world, claimed.value))
              && if recorded then
                   && claimed.value in store.receipts
                   && InboxOutcomes.FailedRow(store.receipts[claimed.value], error.value, store.now)
                 else LeaseGone(store.Snapshot(), lease) || InboxOutcomes.Locked(store.Snapshot(), claimed.value)
    ensures claimed.Some? && Undisturbed(world, claimed.value, env) && old(store.Alone(w)) ==>
              !lost && (error.Some? ==> error.value)
  {
    claimed := ReapAndClaim(store, w, lease, env);
    error, lost, recorded := None, false, false;
    if claimed.None? {
      return;
    }
    ghost var reaped := store.history;
    store.Others(env(2), w);
    error, lost := Process(store, w, world, (k: nat) => env(k + 4));
    if error.Some? {
      recorded := ScheduleRetry(store, w, env(3));
    }
    ReapsStill(reaped, store.history, |old(store.history)|);
  }
}
