/** `RecoverOrganization`, which the reconciliation loop calls. Other
    writers may act between any two of its database calls. */
module Recovery {
  import opened Sql
  import opened Subscriptions
  import opened Polar
  import opened Text
  import opened Translation

  datatype ListedSubscription = ListedSubscription(id: string, productId: string)

  /** The provider's customer state, reduced to what recovery reads. */
  datatype CustomerState = CustomerState(customerId: string, active: seq<ListedSubscription>)

  datatype ProviderError = NotFound | Unavailable

  datatype RecoveryError =
    | ProviderFailed
    | SeveralSubscriptions
    | OwnershipMismatch
    | ActiveCannotBeReplaced
    | SyncFailed

  // ------------------------------------------------------------------- candidate

  predicate Recognized(catalog: Catalog, listed: ListedSubscription) {
    FirstCode(catalog, PLAN_CODES, listed.productId).Some?
  }

  /** At most one subscription id among those for a known product. */
  predicate OneRecognized(catalog: Catalog, active: seq<ListedSubscription>) {
    forall a, b | a in active && b in active ::
      Recognized(catalog, a) && Recognized(catalog, b) ==> a.id == b.id
  }

  /** The candidate loop: refused exactly when two known subscriptions differ,
      otherwise the id of the known one. */
  method FindCandidate(catalog: Catalog, active: seq<ListedSubscription>)
    returns (result: Result<Option<string>, RecoveryError>)
    ensures result.Err? <==> !OneRecognized(catalog, active)
    ensures result.Err? ==> result.error == SeveralSubscriptions
    ensures result.Ok? ==>
              && (result.value.None? <==> forall a <- active :: !Recognized(catalog, a))
              && (forall a <- active :: Recognized(catalog, a) ==> result.value == Some(a.id))
  {
    var candidate: Option<string> := None;
    var i := 0;
    while i < |active|
      invariant 0 <= i <= |active|
      invariant candidate.None? ==> forall a <- active[..i] :: !Recognized(catalog, a)
      invariant candidate.Some? ==> exists a <- active[..i] :: Recognized(catalog, a) && candidate == Some(a.id)
      invariant forall a <- active[..i] :: Recognized(catalog, a) ==> candidate == Some(a.id)
    {
      assert active[..i + 1] == active[..i] + [active[i]];
      var code := PlanCodeFromProduct(catalog, active[i].productId);
      if code.Ok? {
        if candidate.Some? && candidate.value != active[i].id {
          var a :| a in active[..i] && Recognized(catalog, a) && candidate == Some(a.id);
          assert a in active && active[i] in active;
          return Err(SeveralSubscriptions);
        }
        candidate := Some(active[i].id);
        assert active[i] in active[..i + 1];
      }
      i := i + 1;
    }
    assert active[..i] == active;
    result := Ok(candidate);
  }

  // ---------------------------------------------------------------------- drivers

  function ExcludedAll(reqs: seq<SyncRequest>): seq<Subscription> {
    seq(|reqs|, i requires 0 <= i < |reqs| => Excluded(reqs[i]))
  }

  lemma {:induction false} ReplayAppend(row: Option<Subscription>, a: seq<Subscription>, b: seq<Subscription>)
    ensures Replay(row, a + b) == Replay(Replay(row, a), b)
  {
    if b == [] {
      assert a + b == a;
    } else {
      var n := |b| - 1;
      assert (a + b)[..|a| + n] == a + b[..n];
      ReplayAppend(row, a, b[..n]);
    }
  }

  lemma ReplaySingle(row: Option<Subscription>, w: Subscription)
    ensures Replay(row, [w]) == Some(After(row, w))
  {
    assert [w][..0] == [];
  }

  /** Writes of others to the same organization. */
  method Others(table: Table, organization: nat, reqs: seq<SyncRequest>)
    modifies table
    ensures table.Row(organization) == Replay(old(table.Row(organization)), ExcludedAll(reqs))
  {
    var i := 0;
    while i < |reqs|
      invariant 0 <= i <= |reqs|
      invariant table.Row(organization) == Replay(old(table.Row(organization)), ExcludedAll(reqs)[..i])
    {
      var _ := table.UpsertOrganizationSubscription(organization, reqs[i]);
      ReplayPrefix(old(table.Row(organization)), ExcludedAll(reqs), i);
      i := i + 1;
    }
    assert ExcludedAll(reqs)[..i] == ExcludedAll(reqs);
  }

  function Timestamp(value: PolarSubscription, observedAt: int): int {
    if value.modifiedAt.Some? then value.modifiedAt.value else observedAt
  }

  // ----------------------------------------------------- what recovery should do

  type Fetch = string -> Result<PolarSubscription, ProviderError>

  /** What a recovery has to go by. */
  datatype Source = Source(catalog: Catalog, organization: nat, observedAt: int, fetch: Fetch)

  /** The organization's row names a subscription of the provider. */
  predicate Known(existing: Option<Subscription>) {
    existing.Some? && existing.value.subscriptionId.Some? && existing.value.provider == Some("polar")
  }

  /** The provider lists this subscription, for a product that is sold here. */
  predicate Lists(catalog: Catalog, active: seq<ListedSubscription>, id: string) {
    exists a <- active :: Recognized(catalog, a) && a.id == id
  }

  predicate Belongs(value: PolarSubscription, organization: nat, customer: CustomerState) {
    value.organization == Some(organization) && value.customerId == customer.customerId
  }

  /** The known subscription can be fetched, is the customer's, and translates. */
  ghost predicate Refreshable(src: Source, known: Subscription, customer: CustomerState)
    requires known.subscriptionId.Some?
  {
    var fetched := src.fetch(known.subscriptionId.value);
    && fetched.Ok?
    && Belongs(fetched.value, src.organization, customer)
    && known.customerId == Some(fetched.value.customerId)
    && Translates(src.catalog, Timestamp(fetched.value, src.observedAt), fetched.value)
  }

  /** So can the listed one. */
  ghost predicate Adoptable(src: Source, id: string, customer: CustomerState) {
    var fetched := src.fetch(id);
    && fetched.Ok? && fetched.value.id == id
    && Belongs(fetched.value, src.organization, customer)
    && Translates(src.catalog, Timestamp(fetched.value, src.observedAt), fetched.value)
  }

  /** The listed subscription is the known one, so that refreshing that is enough. */
  predicate SameAsKnown(src: Source, existing: Option<Subscription>, id: string) {
    Known(existing) && src.fetch(existing.value.subscriptionId.value).Ok?
    && src.fetch(existing.value.subscriptionId.value).value.id == id
  }

  /** Recovery has nothing to complain about: an unknown customer has no row; or at most
      one subscription for a product sold here is listed, a known one can be refreshed,
      and a listed other one can be adopted, the known one having been canceled. */
  ghost predicate Recoverable(src: Source, existing: Option<Subscription>,
                              state: Result<CustomerState, ProviderError>)
  {
    match state
    case Err(error) => error == NotFound && existing.None?
    case Ok(customer) =>
      && OneRecognized(src.catalog, customer.active)
      && (Known(existing) ==> Refreshable(src, existing.value, customer))
      && forall id :: Lists(src.catalog, customer.active, id) && !SameAsKnown(src, existing, id) ==>
           && Adoptable(src, id, customer)
           && (Known(existing) ==> src.fetch(existing.value.subscriptionId.value).value.status.PCanceled?)
  }

  /** The row that the fetched subscription of this id is written as, dated with its last
      modification or else with the time of the observation, and with the grace pair that
      some row stored earlier calls for. */
  ghost predicate MadeFrom(src: Source, id: string, w: Subscription) {
    && src.fetch(id).Ok?
    && var value := src.fetch(id).value;
    && value.organization == Some(src.organization)
    && WrittenAs(src.catalog, Timestamp(value, src.observedAt), value, w)
    && (value.modifiedAt.Some? ==> w.eventAt == value.modifiedAt)
    && (value.modifiedAt.None? ==> w.eventAt == Some(src.observedAt))
    && exists read :: PairFor(read, Timestamp(value, src.observedAt), value, w)
  }

  // ------------------------------------------------------------------- one write

  /** `syncPolarSubscription`, with others writing between its read and its
      upsert. `writes` is everything written meanwhile, in order. It fails exactly when
      the value does not translate or continues an episode whose pair is in disorder. */
  method SyncPolarSubscription(table: Table, catalog: Catalog, organization: nat, at: int,
                               value: PolarSubscription, others: seq<SyncRequest>)
    returns (failed: bool, ghost writes: seq<Subscription>)
    requires value.organization == Some(organization)
    modifies table
    ensures table.Row(organization) == Replay(old(table.Row(organization)), writes)
    ensures failed ==> writes == ExcludedAll(others)
    ensures !failed ==>
              && |writes| == |others| + 1
              && writes[..|others|] == ExcludedAll(others)
              && WrittenAs(catalog, at, value, writes[|others|])
              && PairFor(old(table.Row(organization)), at, value, writes[|others|])
    ensures failed ==> !Translates(catalog, at, value)
                       || !PairOrdered(old(table.Row(organization)))
    ensures !failed ==> Translates(catalog, at, value)
  {
    ghost var before := table.Row(organization);
    var read: Option<Subscription> := None;
    if value.status.PPastDue? {
      read := table.Row(organization);
    }
    Others(table, organization, others);
    writes := ExcludedAll(others);
    TranslatesExactly(catalog, read, at, value);
    var built := BuildRequest(catalog, read, at, value);
    if built.Err? {
      return true, writes;
    }
    WrittenRow(catalog, read, at, value);
    ghost var now := table.Row(organization);
    var result := table.Sync(organization, built.value);
    if result.Err? {
      return true, writes;
    }
    ReplayAppend(before, writes, [Excluded(built.value)]);
    ReplaySingle(now, Excluded(built.value));
    writes := writes + [Excluded(built.value)];
    failed := false;
  }

  /** What others write, call by call. */
  datatype Interference = Interference(
    beforeFirst: seq<SyncRequest>, inFirst: seq<SyncRequest>,
    beforeSecond: seq<SyncRequest>, inSecond: seq<SyncRequest>)

  function Theirs(env: Interference): seq<Subscription> {
    ExcludedAll(env.beforeFirst) + ExcludedAll(env.inFirst) + ExcludedAll(env.beforeSecond) + ExcludedAll(env.inSecond)
  }

  /** The write is recovery's own, of the fetched subscription of this id, or somebody
      else's. */
  ghost predicate Explained(src: Source, env: Interference, w: Subscription, author: Option<string>) {
    if author.Some? then MadeFrom(src, author.value, w) else w in Theirs(env)
  }

  /** Every write is accounted for. */
  ghost predicate Accounted(src: Source, env: Interference, writes: seq<Subscription>, authors: seq<Option<string>>) {
    && |writes| == |authors|
    && forall k | 0 <= k < |writes| ::
         Explained(src, env, writes[k], authors[k])
  }

  /** Recovery's own, in order. */
  ghost function Own(authors: seq<Option<string>>): seq<string> {
    if authors == [] then []
    else
      var n := |authors| - 1;
      Own(authors[..n]) + if authors[n].Some? then [authors[n].value] else []
  }

  ghost function Foreign(n: nat): seq<Option<string>> {
    seq(n, _ => None)
  }

  lemma {:induction false} OwnForeign(authors: seq<Option<string>>, n: nat)
    ensures Own(authors + Foreign(n)) == Own(authors)
  {
    if n == 0 {
      assert authors + Foreign(0) == authors;
    } else {
      assert (authors + Foreign(n))[..|authors| + n - 1] == authors + Foreign(n - 1);
      OwnForeign(authors, n - 1);
    }
  }

  lemma TheirsNext(src: Source, env: Interference, writes: seq<Subscription>, authors: seq<Option<string>>,
                   more: seq<Subscription>)
    requires Accounted(src, env, writes, authors) && forall w <- more :: w in Theirs(env)
    ensures Accounted(src, env, writes + more, authors + Foreign(|more|))
    ensures Own(authors + Foreign(|more|)) == Own(authors)
  {
    OwnForeign(authors, |more|);
  }

  lemma OwnNext(src: Source, env: Interference, writes: seq<Subscription>, authors: seq<Option<string>>,
                w: Subscription, id: string)
    requires Accounted(src, env, writes, authors) && MadeFrom(src, id, w)
    ensures Accounted(src, env, writes + [w], authors + [Some(id)])
    ensures Own(authors + [Some(id)]) == Own(authors) + [id]
  {
    assert (authors + [Some(id)])[..|authors|] == authors;
  }

  /** What one successful `syncPolarSubscription` adds to the account. */
  lemma BothNext(src: Source, env: Interference, writes: seq<Subscription>, authors: seq<Option<string>>,
                 theirs: seq<Subscription>, w: Subscription, id: string)
    requires Accounted(src, env, writes, authors) && forall v <- theirs :: v in Theirs(env)
    requires MadeFrom(src, id, w)
    ensures Accounted(src, env, writes + (theirs + [w]), authors + Foreign(|theirs|) + [Some(id)])
    ensures Own(authors + Foreign(|theirs|) + [Some(id)]) == Own(authors) + [id]
  {
    TheirsNext(src, env, writes, authors, theirs);
    OwnNext(src, env, writes + theirs, authors + Foreign(|theirs|), w, id);
    assert writes + (theirs + [w]) == (writes + theirs) + [w];
  }

  lemma SyncNext(src: Source, env: Interference, writes: seq<Subscription>, authors: seq<Option<string>>,
                 theirs: seq<Subscription>, added: seq<Subscription>, failed: bool, id: string)
    returns (next: seq<Option<string>>)
    requires Accounted(src, env, writes, authors) && forall w <- theirs :: w in Theirs(env)
    requires failed ==> added == theirs
    requires !failed ==>
               |added| == |theirs| + 1 && added[..|theirs|] == theirs && MadeFrom(src, id, added[|theirs|])
    ensures Accounted(src, env, writes + added, next)
    ensures Own(next) == Own(authors) + if failed then [] else [id]
  {
    if failed {
      TheirsNext(src, env, writes, authors, theirs);
      next := authors + Foreign(|theirs|);
    } else {
      BothNext(src, env, writes, authors, theirs, added[|theirs|], id);
      next := authors + Foreign(|theirs|) + [Some(id)];
      assert added == theirs + [added[|theirs|]];
    }
  }

  predicate AllOrdered(writes: seq<Subscription>) {
    forall w <- writes :: PairOrdered(Some(w))
  }

  /** Rows and writes whose pairs are in order leave rows of the same kind. */
  lemma {:induction false} OrderStays(row: Option<Subscription>, writes: seq<Subscription>)
    requires PairOrdered(row) && AllOrdered(writes)
    ensures PairOrdered(Replay(row, writes))
  {
    if writes != [] {
      var n := |writes| - 1;
      OrderStays(row, writes[..n]);
      assert writes[n] in writes;
    }
  }

  /** The row at the start and everybody else's writes have their pairs in order; every
      writer's requests have passed the same validation. */
  ghost predicate Orderly(start: Option<Subscription>, env: Interference) {
    PairOrdered(start) && AllOrdered(Theirs(env))
  }

  /** `syncPolarSubscription` of a fetched subscription, with its account. In an
      orderly world it fails exactly when the value does not translate. */
  method SyncAndAccount(
    table: Table, src: Source, id: string, others: seq<SyncRequest>,
    ghost env: Interference, ghost start: Option<Subscription>, ghost before: seq<Subscription>,
    ghost earlier: seq<Option<string>>)
    returns (failed: bool, ghost writes: seq<Subscription>, ghost authors: seq<Option<string>>)
    requires src.fetch(id).Ok? && src.fetch(id).value.organization == Some(src.organization)
    requires table.Row(src.organization) == Replay(start, before)
    requires Accounted(src, env, before, earlier) && forall w <- ExcludedAll(others) :: w in Theirs(env)
    requires Orderly(start, env) ==> AllOrdered(before)
    modifies table
    ensures table.Row(src.organization) == Replay(start, writes)
    ensures Accounted(src, env, writes, authors) && Own(authors) == Own(earlier) + if failed then [] else [id]
    ensures var value := src.fetch(id).value;
            && (!failed ==> Translates(src.catalog, Timestamp(value, src.observedAt), value))
            && (Orderly(start, env) && Translates(src.catalog, Timestamp(value, src.observedAt), value) ==> !failed)
    ensures Orderly(start, env) ==> AllOrdered(writes)
  {
    var value := src.fetch(id).value;
    ghost var read := table.Row(src.organization);
    ghost var added;
    failed, added := SyncPolarSubscription(table, src.catalog, src.organization, Timestamp(value, src.observedAt),
                                           value, others);
    ReplayAppend(start, before, added);
    authors := SyncNext(src, env, before, earlier, ExcludedAll(others), added, failed, id);
    writes := before + added;
    if Orderly(start, env) {
      OrderStays(start, before);
      AddedOrdered(src, env, read, value, ExcludedAll(others), added, failed);
    }
  }

  lemma AddedOrdered(src: Source, env: Interference, read: Option<Subscription>, value: PolarSubscription,
                     theirs: seq<Subscription>, added: seq<Subscription>, failed: bool)
    requires PairOrdered(read)
    requires AllOrdered(Theirs(env)) && forall w <- theirs :: w in Theirs(env)
    requires failed ==> added == theirs
    requires !failed ==>
               && |added| == |theirs| + 1 && added[..|theirs|] == theirs
               && PairFor(read, Timestamp(value, src.observedAt), value, added[|theirs|])
    ensures AllOrdered(added)
  {
    forall w | w in added ensures PairOrdered(Some(w)) {
      if w !in theirs {
        assert w == added[|theirs|];
      }
    }
  }

  /** What a recovery without an error writes of its own, in order: the known
      subscription, and the listed one unless that is the same. */
  ghost predicate Complete(src: Source, existing: Option<Subscription>, state: Result<CustomerState, ProviderError>,
                           own: seq<string>)
  {
    match state
    case Err(_) => own == []
    case Ok(customer) =>
      var known := if Known(existing) then [existing.value.subscriptionId.value] else [];
      if exists id :: Lists(src.catalog, customer.active, id) && !SameAsKnown(src, existing, id) then
        exists id :: Lists(src.catalog, customer.active, id) && !SameAsKnown(src, existing, id) && own == known + [id]
      else own == known
  }

  /** `RecoverOrganization`. The row it leaves is a replay of the writes of all
      parties, of which at most two are its own. In an orderly world it answers without
      an error exactly when there is nothing to complain about; and then it has written
      the known subscription and the listed one, as fetched, and nothing more. */
  method RecoverOrganization(
    table: Table, src: Source, state: Result<CustomerState, ProviderError>, env: Interference)
    returns (error: Option<RecoveryError>, ghost writes: seq<Subscription>, ghost authors: seq<Option<string>>)
    modifies table
    ensures table.Row(src.organization) == Replay(old(table.Row(src.organization)), writes)
    ensures |Own(authors)| <= 2 && Accounted(src, env, writes, authors)
    ensures error.None? ==>
              && Recoverable(src, old(table.Row(src.organization)), state)
              && Complete(src, old(table.Row(src.organization)), state, Own(authors))
    ensures Orderly(old(table.Row(src.organization)), env) && Recoverable(src, old(table.Row(src.organization)), state)
            ==> error.None?
    ensures state.Ok? && !OneRecognized(src.catalog, state.value.active) ==> error == Some(SeveralSubscriptions)
    ensures error == Some(SeveralSubscriptions) ==> Own(authors) == []
    ensures old(table.Row(src.organization)).Some? ==>
              && table.Row(src.organization).Some?
              && IdentityKept(old(table.Row(src.organization)).value, table.Row(src.organization).value)
  {
    ghost var start := table.Row(src.organization);
    error, writes, authors := None, [], [];
    CompareIdentity(start, writes);
    var existing := table.Row(src.organization);
    if state.Err? {
      if state.error == NotFound && existing.None? {
        return;
      }
      error := Some(ProviderFailed);
      return;
    }
    var found := FindCandidate(src.catalog, state.value.active);
    if found.Err? {
      error := Some(found.error);
      return;
    }
    var candidate := found.value;
    OnlyCandidate(src.catalog, state.value.active, candidate);
    FeasibleMeans(src, existing, state.value, candidate);
    error, writes, authors := RefreshAndAdopt(table, src, existing, state.value, candidate, env);
    CompareIdentity(start, writes);
  }

  /** What recovery can do about the candidate, if there is one. */
  ghost predicate Feasible(src: Source, existing: Option<Subscription>, customer: CustomerState,
                           candidate: Option<string>)
  {
    && (Known(existing) ==> Refreshable(src, existing.value, customer))
    && (candidate.Some? && !SameAsKnown(src, existing, candidate.value) ==>
          && Adoptable(src, candidate.value, customer)
          && (Known(existing) ==> src.fetch(existing.value.subscriptionId.value).value.status.PCanceled?))
  }

  function Planned(src: Source, existing: Option<Subscription>, candidate: Option<string>): seq<string> {
    (if Known(existing) then [existing.value.subscriptionId.value] else [])
    + if candidate.Some? && !SameAsKnown(src, existing, candidate.value) then [candidate.value] else []
  }

  /** The candidate being what is listed, that is what is asked of recovery. */
  lemma FeasibleMeans(src: Source, existing: Option<Subscription>, customer: CustomerState, candidate: Option<string>)
    requires OneRecognized(src.catalog, customer.active)
    requires forall id :: Lists(src.catalog, customer.active, id) <==> candidate == Some(id)
    ensures Feasible(src, existing, customer, candidate) <==> Recoverable(src, existing, Ok(customer))
    ensures Complete(src, existing, Ok(customer), Planned(src, existing, candidate))
  {
    if candidate.Some? {
      assert Lists(src.catalog, customer.active, candidate.value);
    }
  }

  /** `RecoverOrganization` once the candidate is known. */
  method RefreshAndAdopt(
    table: Table, src: Source, existing: Option<Subscription>, customer: CustomerState, candidate: Option<string>,
    env: Interference)
    returns (error: Option<RecoveryError>, ghost writes: seq<Subscription>, ghost authors: seq<Option<string>>)
    requires existing == table.Row(src.organization)
    modifies table
    ensures table.Row(src.organization) == Replay(existing, writes)
    ensures |Own(authors)| <= 2 && Accounted(src, env, writes, authors)
    ensures error.None? ==>
              && Feasible(src, existing, customer, candidate)
              && Own(authors) == Planned(src, existing, candidate)
    ensures Orderly(existing, env) && Feasible(src, existing, customer, candidate) ==> error.None?
    ensures error != Some(SeveralSubscriptions)
  {
    error := None;
    Others(table, src.organization, env.beforeFirst);
    writes := ExcludedAll(env.beforeFirst);
    TheirsNext(src, env, [], [], writes);
    authors := [] + Foreign(|writes|);
    assert [] + writes == writes;
    if existing.Some? && existing.value.subscriptionId.Some? && existing.value.provider == Some(POLAR) {
      var more;
      error, more, writes, authors := RefreshKnown(table, src, customer, existing.value, candidate, env,
                                                   existing, writes, authors);
      if !more {
        return;
      }
    }
    if candidate.None? {
      return;
    }
    error, writes, authors := SyncCandidate(table, src, customer, candidate.value, env, existing, writes, authors);
  }

  lemma {:induction false} OwnHasAuthor(authors: seq<Option<string>>, id: string) returns (k: nat)
    requires id in Own(authors)
    ensures k < |authors| && authors[k] == Some(id)
  {
    var n := |authors| - 1;
    if authors[n] == Some(id) {
      k := n;
    } else {
      k := OwnHasAuthor(authors[..n], id);
    }
  }

  /** The listed subscription has been written. */
  lemma ListedWritten(src: Source, existing: Option<Subscription>, state: Result<CustomerState, ProviderError>,
                      env: Interference, writes: seq<Subscription>, authors: seq<Option<string>>, id: string)
    returns (k: nat)
    requires Recoverable(src, existing, state) && Complete(src, existing, state, Own(authors))
    requires Accounted(src, env, writes, authors)
    requires state.Ok? && Lists(src.catalog, state.value.active, id)
    ensures k < |writes| && authors[k].Some? && MadeFrom(src, authors[k].value, writes[k])
    ensures writes[k].subscriptionId == Some(Trim(id))
  {
    if SameAsKnown(src, existing, id) {
      k := OwnHasAuthor(authors, existing.value.subscriptionId.value);
    } else {
      var x :| Lists(src.catalog, state.value.active, x) && !SameAsKnown(src, existing, x) && x in Own(authors);
      k := OwnHasAuthor(authors, x);
    }
  }

  lemma OnlyCandidate(catalog: Catalog, active: seq<ListedSubscription>, candidate: Option<string>)
    requires candidate.None? <==> forall a <- active :: !Recognized(catalog, a)
    requires forall a <- active :: Recognized(catalog, a) ==> candidate == Some(a.id)
    ensures forall id :: Lists(catalog, active, id) <==> candidate == Some(id)
  {
  }

  /** The first part: retire or refresh the subscription known locally. `more` tells
      that the candidate is another one and still to be adopted. */
  method RefreshKnown(
    table: Table, src: Source, customer: CustomerState, existing: Subscription, candidate: Option<string>,
    env: Interference, ghost start: Option<Subscription>, ghost before: seq<Subscription>,
    ghost earlier: seq<Option<string>>)
    returns (error: Option<RecoveryError>, more: bool, ghost writes: seq<Subscription>,
             ghost authors: seq<Option<string>>)
    requires existing.subscriptionId.Some?
    requires table.Row(src.organization) == Replay(start, before)
    requires Accounted(src, env, before, earlier) && Own(earlier) == []
    requires Orderly(start, env) ==> AllOrdered(before)
    modifies table
    ensures table.Row(src.organization) == Replay(start, writes)
    ensures |Own(authors)| <= 1 && Accounted(src, env, writes, authors)
    ensures Orderly(start, env) ==> AllOrdered(writes)
    ensures error.None? ==>
              && Refreshable(src, existing, customer) && Own(authors) == [existing.subscriptionId.value]
              && var value := src.fetch(existing.subscriptionId.value).value;
              && (more <==> candidate.Some? && candidate.value != value.id)
              && (more ==> value.status.PCanceled?)
    ensures Orderly(start, env) && Refreshable(src, existing, customer) ==>
              var value := src.fetch(existing.subscriptionId.value).value;
              (candidate.Some? && candidate.value != value.id ==> value.status.PCanceled?) ==> error.None?
    ensures more ==> error.None?
    ensures error != Some(SeveralSubscriptions)
  {
    error, more, writes, authors := None, false, before, earlier;
    var id := existing.subscriptionId.value;
    var fetched := src.fetch(id);
    if fetched.Err? {
      error := Some(ProviderFailed);
      return;
    }
    var value := fetched.value;
    if value.organization != Some(src.organization) || value.customerId != customer.customerId
       || existing.customerId != Some(value.customerId) {
      error := Some(OwnershipMismatch);
      return;
    }
    var failed;
    failed, writes, authors := SyncAndAccount(table, src, id, env.inFirst, env, start, before, earlier);
    if failed {
      error := Some(SyncFailed);
      return;
    }
    if candidate.None? || candidate.value == value.id {
      return;
    }
    if !value.status.PCanceled? {
      error := Some(ActiveCannotBeReplaced);
      return;
    }
    more := true;
  }

  /** The last part: fetch, check and sync the candidate. */
  method SyncCandidate(
    table: Table, src: Source, customer: CustomerState, candidate: string,
    env: Interference, ghost start: Option<Subscription>, ghost before: seq<Subscription>,
    ghost earlier: seq<Option<string>>)
    returns (error: Option<RecoveryError>, ghost writes: seq<Subscription>, ghost authors: seq<Option<string>>)
    requires table.Row(src.organization) == Replay(start, before)
    requires Accounted(src, env, before, earlier)
    requires Orderly(start, env) ==> AllOrdered(before)
    modifies table
    ensures table.Row(src.organization) == Replay(start, writes)
    ensures |Own(authors)| <= |Own(earlier)| + 1 && Accounted(src, env, writes, authors)
    ensures error.None? ==> Adoptable(src, candidate, customer) && Own(authors) == Own(earlier) + [candidate]
    ensures Orderly(start, env) && Adoptable(src, candidate, customer) ==> error.None?
    ensures error != Some(SeveralSubscriptions)
  {
    error, writes, authors := None, before, earlier;
    var fetched := src.fetch(candidate);
    if fetched.Err? {
      error := Some(ProviderFailed);
      return;
    }
    var value := fetched.value;
    if value.id != candidate || value.customerId != customer.customerId
       || value.organization != Some(src.organization) {
      error := Some(OwnershipMismatch);
      return;
    }
    Others(table, src.organization, env.beforeSecond);
    ReplayAppend(start, before, ExcludedAll(env.beforeSecond));
    TheirsNext(src, env, before, earlier, ExcludedAll(env.beforeSecond));
    ghost var met := before + ExcludedAll(env.beforeSecond);
    assert Orderly(start, env) ==> AllOrdered(met);
    var failed;
    failed, writes, authors := SyncAndAccount(table, src, candidate, env.inSecond, env, start, met,
                                         earlier + Foreign(|ExcludedAll(env.beforeSecond)|));
    if failed {
      error := Some(SyncFailed);
    }
  }

  lemma CompareIdentity(start: Option<Subscription>, writes: seq<Subscription>)
    ensures start.Some? ==>
              Replay(start, writes).Some? && IdentityKept(start.value, Replay(start, writes).value)
  {
    if start.Some? {
      RegisterIdentity(start.value, writes);
    }
  }

  /** A stale first sync is harmless: while the stored subscription is live, a
      write for another one, like recovery's second, does not replace it. */
  lemma LiveSubscriptionSurvives(row: Subscription, first: Subscription, second: Subscription)
    requires row.subscriptionId.Some? && row.status != Canceled
    requires first.subscriptionId == row.subscriptionId
    requires second.subscriptionId != row.subscriptionId
    requires !Guard(row, first).Holds() || first.status != Canceled
    ensures Replay(Some(row), [first, second]).value.subscriptionId == row.subscriptionId
  {
    assert [first, second][..1] == [first];
    ReplaySingle(Some(row), first);
    GuardMeaning(row, first);
    GuardMeaning(After(Some(row), first), second);
  }
}
