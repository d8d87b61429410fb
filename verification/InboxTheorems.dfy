/** What the inbox guarantees over every run: any number of workers, crashes,
    lease expiry and takeover, commits that succeed but report an error, retries,
    redelivery and cleanup, interleaved in any order with writes made outside it. */
module InboxTheorems {
  import opened Sql
  import opened Subscriptions
  import opened Polar
  import opened Register
  import opened Inbox
  import opened InboxSafety
  import Access

  // ---------------------------------------------------------------- exactly once

  /** A receipt is processed if and only if exactly one transaction carrying its
      effect has committed; an ignored or dead-lettered receipt has none, and no
      receipt, present or deleted, ever has two. */
  lemma ExactlyOnceCommit(catalog: Catalog, now: int, events: seq<Event>, id: nat)
    ensures var s := Run(Initial(catalog, now), events);
            && Commits(s.log, id) <= 1
            && (id in s.receipts ==> (s.receipts[id].status == Processed <==> Commits(s.log, id) == 1))
            && (id in s.receipts && s.receipts[id].status in {Ignored, DeadLetter} ==> Commits(s.log, id) == 0)
  {
    InitialInv(catalog, now);
    RunKeeps(Initial(catalog, now), events);
  }

  lemma LogGrows(s: State, e: Event)
    ensures s.log <= Next(s, e).log
  {
  }

  lemma {:induction false} LogOnlyGrows(s: State, events: seq<Event>) returns (more: seq<Commitment>)
    ensures Run(s, events).log == s.log + more
  {
    if events == [] {
      more := [];
    } else {
      var n := |events| - 1;
      var prior := LogOnlyGrows(s, events[..n]);
      var t := Run(s, events[..n]);
      LogGrows(t, events[n]);
      var u := Next(t, events[n]);
      more := u.log[|s.log|..];
      assert u.log == s.log + more;
    }
  }

  lemma {:induction false} WritesConcat(a: seq<Commitment>, b: seq<Commitment>)
    ensures Writes(a + b) == Writes(a) + Writes(b)
  {
    if b == [] {
      assert a + b == a;
    } else {
      var n := |b| - 1;
      assert (a + b)[..|a| + n] == a + b[..n];
      WritesConcat(a, b[..n]);
    }
  }

  /** Conservation: whatever transactions overlapped, every row is what replaying
      the committed effects one after the other, each once, makes it; and between
      two states it is what the effects committed in between make of it. */
  lemma RegisterIsReplayOfLog(catalog: Catalog, now: int, before: seq<Event>, after: seq<Event>, organization: nat)
    returns (between: seq<Commitment>)
    ensures var s, t := Run(Initial(catalog, now), before), Run(Initial(catalog, now), before + after);
            && RowOf(t.register, organization) == Replay(None, For(Writes(t.log), organization))
            && t.log == s.log + between
            && RowOf(t.register, organization)
               == Replay(RowOf(s.register, organization), For(Writes(between), organization))
  {
    InitialInv(catalog, now);
    var s := Run(Initial(catalog, now), before);
    RunKeeps(Initial(catalog, now), before);
    RunConcat(Initial(catalog, now), before, after);
    RunKeeps(s, after);
    between := LogOnlyGrows(s, after);
    WritesConcat(s.log, between);
    ReplayConcat(map[], Writes(s.log), Writes(between));
    ReplayPerOrganization(map[], Writes(s.log + between), organization);
    ReplayPerOrganization(s.register, Writes(between), organization);
  }

  /** At some moment of the replay the row was canceled and carried the given
      subscription id. */
  ghost predicate CanceledUnder(row: Subscription, writes: seq<Subscription>, subscription: Option<string>) {
    exists k: nat ::
      && k < |writes|
      && Replay(Some(row), writes[..k]).Some?
      && var at := Replay(Some(row), writes[..k]).value;
      at.status == Canceled && at.subscriptionId == subscription
  }

  /** The register's identity rules hold between any two moments of any run: no
      earlier provider timestamp, no other customer, and another subscription id
      only if the row carrying the old one was canceled in between. */
  lemma RegisterIdentityOverRuns(catalog: Catalog, now: int, before: seq<Event>, after: seq<Event>, organization: nat)
    returns (between: seq<Commitment>)
    requires organization in Run(Initial(catalog, now), before).register
    ensures var s, t := Run(Initial(catalog, now), before), Run(Initial(catalog, now), before + after);
            && t.log == s.log + between
            && organization in t.register
            && var row, later := s.register[organization], t.register[organization];
            && IdentityKept(row, later)
            && (row.subscriptionId.Some? && later.subscriptionId != row.subscriptionId ==>
                  CanceledUnder(row, For(Writes(between), organization), row.subscriptionId))
  {
    between := RegisterIsReplayOfLog(catalog, now, before, after, organization);
    var row := Run(Initial(catalog, now), before).register[organization];
    var own := For(Writes(between), organization);
    RegisterIdentity(row, own);
    if row.subscriptionId.Some? && Replay(Some(row), own).value.subscriptionId != row.subscriptionId {
      SubscriptionChangesOnlyWhenCanceled(row, own);
    }
  }

  // --------------------------------------------------------------- lease fencing

  predicate LeaseGone(s: State, lease: nat) {
    lease in s.leases && forall id <- s.receipts :: s.receipts[id].lease != Some(lease)
  }

  lemma LostLeaseStep(s: State, e: Event, lease: nat)
    requires LeaseGone(s, lease)
    ensures LeaseGone(Next(s, e), lease)
  {
    match e
    case Insert(id, eventId, payloadHash) =>
    case Claim(w, id, token) =>
    case Commit(w, reported) =>
    case Fail(w) =>
    case Sync(w, at, value) => assert Next(s, e).receipts == s.receipts;
    case _ =>
  }

  /** A lease that was taken over, completed, failed or reaped never comes back. */
  lemma {:induction false} LostLeaseStaysLost(s: State, events: seq<Event>, lease: nat)
    requires LeaseGone(s, lease)
    ensures LeaseGone(Run(s, events), lease)
  {
    if events != [] {
      var n := |events| - 1;
      LostLeaseStaysLost(s, events[..n], lease);
      LostLeaseStep(Run(s, events[..n]), events[n], lease);
    }
  }

  function Actor(e: Event): Option<nat> {
    match e
    case Claim(w, _, _) => Some(w)
    case Begin(w) => Some(w)
    case Read(w, _) => Some(w)
    case Sync(w, _, _) => Some(w)
    case Complete(w, _) => Some(w)
    case Commit(w, _) => Some(w)
    case Abort(w, _) => Some(w)
    case Fail(w) => Some(w)
    case Crash(w) => Some(w)
    case _ => None
  }

  /** A worker whose lease is gone can neither complete nor fail the receipt, nor
      commit any effect, until it has let go of its claim. */
  lemma FencedWorkerHasNoEffect(s: State, w: nat, e: Event)
    requires Inv(s) && Actor(e) == Some(w)
    requires !WorkerOf(s, w).phase.Idle? && LeaseGone(s, WorkerOf(s, w).phase.lease)
    ensures Next(s, e).receipts == s.receipts
    ensures Next(s, e).register == s.register && Next(s, e).log == s.log
  {
    assert PhaseOk(s, s.workers[w].phase);
  }

  /** Fencing over runs: whatever happens after the lease is gone, the step a
      worker still bound to it takes changes nothing anybody else can see. */
  lemma FencedForever(s: State, events: seq<Event>, w: nat, lease: nat, e: Event)
    requires Inv(s) && LeaseGone(s, lease) && Actor(e) == Some(w)
    requires !WorkerOf(Run(s, events), w).phase.Idle? && WorkerOf(Run(s, events), w).phase.lease == lease
    ensures var t := Run(s, events);
            Next(t, e).receipts == t.receipts && Next(t, e).register == t.register && Next(t, e).log == t.log
  {
    LostLeaseStaysLost(s, events, lease);
    RunKeeps(s, events);
    FencedWorkerHasNoEffect(Run(s, events), w, e);
  }

  /** Inside the transaction the row lock protects the lease: the "lease was
      lost" error of `process` cannot be reached. */
  lemma LeaseHeldThroughTransaction(s: State, w: nat, ignored: bool)
    requires Inv(s) && WorkerOf(s, w).phase.InTx?
    requires ignored ==> WorkerOf(s, w).phase.tx.staged == []
    ensures WorkerOf(NextComplete(s, w, ignored), w).phase.Completing?
  {
    assert PhaseOk(s, s.workers[w].phase);
    assert ReceiptOk(s.receipts[s.workers[w].phase.id], s.now);
  }

  // ---------------------------------------------------------- no stranded receipt

  predicate Unfinished(r: Receipt) {
    r.status == Pending || r.status == Processing
  }

  /** The only ways in which a row changes. */
  predicate Becomes(r: Receipt, t: Receipt, now: int) {
    || t == r
    || (Claimable(r, now) && t.status == Processing && t.attempts == r.attempts + 1)
    || (r.status == Processing && !Unfinished(t))
    || (r.status == Processing && t.status == Pending && t.attempts == r.attempts < MAX_ATTEMPTS
        && t.availableAt == now + RetrySeconds(r.attempts) * SECOND)
  }

  lemma RowStep(s: State, e: Event, id: nat)
    requires Inv(s) && id in s.receipts && id in Next(s, e).receipts
    ensures Becomes(s.receipts[id], Next(s, e).receipts[id], s.now)
  {
    assert ReceiptOk(s.receipts[id], s.now);
    if Actor(e).Some? {
      var p := WorkerOf(s, Actor(e).value).phase;
      assert !p.Idle? ==> PhaseOk(s, p);
    }
  }

  /** Falls with every change of a row. */
  function Measure(r: Receipt): int {
    if Unfinished(r) then 2 * (MAX_ATTEMPTS - r.attempts) + (if r.status == Processing then 1 else 0) else 0
  }

  lemma MeasureFalls(s: State, e: Event, id: nat)
    requires Inv(s) && id in s.receipts && id in Next(s, e).receipts
    requires Next(s, e).receipts[id] != s.receipts[id]
    ensures 0 <= Measure(Next(s, e).receipts[id]) < Measure(s.receipts[id])
  {
    RowStep(s, e, id);
    StepKeeps(s, e);
    assert ReceiptOk(s.receipts[id], s.now) && ReceiptOk(Next(s, e).receipts[id], Next(s, e).now);
  }

  /** How often the row of a receipt changes in a run. */
  function Changes(s: State, events: seq<Event>, id: nat): nat {
    if events == [] then 0
    else
      var n := |events| - 1;
      var t, u := Run(s, events[..n]), Run(s, events);
      Changes(s, events[..n], id) +
      if id in t.receipts && id in u.receipts && t.receipts[id] != u.receipts[id] then 1 else 0
  }

  lemma GoneStaysGone(s: State, e: Event, id: nat)
    requires Inv(s) && id in s.issued && id !in s.receipts
    ensures id !in Next(s, e).receipts
  {
  }

  lemma {:induction false} IssuedStays(s: State, events: seq<Event>, id: nat)
    requires id in s.issued
    ensures id in Run(s, events).issued
  {
    if events != [] {
      IssuedStays(s, events[..|events| - 1], id);
    }
  }

  lemma {:induction false} ChangesBound(s: State, events: seq<Event>, id: nat)
    requires Inv(s) && id in s.receipts
    ensures var t := Run(s, events);
            Changes(s, events, id) + (if id in t.receipts then Measure(t.receipts[id]) else 0)
            <= Measure(s.receipts[id])
  {
    if events == [] {
    } else {
      var n := |events| - 1;
      ChangesBound(s, events[..n], id);
      RunKeeps(s, events[..n]);
      var t, u := Run(s, events[..n]), Run(s, events);
      if id in t.receipts {
        assert ReceiptOk(t.receipts[id], t.now);
        if id in u.receipts && u.receipts[id] != t.receipts[id] {
          MeasureFalls(t, events[n], id);
        }
      } else {
        IssuedStays(s, events[..n], id);
        GoneStaysGone(t, events[n], id);
      }
    }
  }

  /** From its arrival on, a receipt changes at most sixteen times in any run. */
  lemma BoundedLife(catalog: Catalog, now: int, before: seq<Event>, after: seq<Event>, id: nat)
    requires id in Run(Initial(catalog, now), before).receipts
    ensures Changes(Run(Initial(catalog, now), before), after, id) <= 16
  {
    InitialInv(catalog, now);
    RunKeeps(Initial(catalog, now), before);
    var s := Run(Initial(catalog, now), before);
    assert ReceiptOk(s.receipts[id], s.now);
    ChangesBound(s, after, id);
    RunKeeps(s, after);
    var t := Run(s, after);
    assert id in t.receipts ==> ReceiptOk(t.receipts[id], t.now);
  }

  /** The wait after which the receipt is due. */
  function Wait(r: Receipt, now: int): int {
    var due := if r.status == Pending then r.availableAt
               else if r.lockedAt.Some? then r.lockedAt.value + LEASE + 1 else now;
    if due <= now then 0 else due - now
  }

  /** No receipt is stranded: in every reachable state, an unfinished receipt not
      locked by an open transaction becomes claimable, or exhausted and reaped,
      after at most 64 seconds of waiting. */
  lemma NoStrandedReceipt(catalog: Catalog, now: int, events: seq<Event>, id: nat)
    requires var s := Run(Initial(catalog, now), events);
             id in s.receipts && Unfinished(s.receipts[id]) && !Held(s, id)
    ensures var s := Run(Initial(catalog, now), events);
            var wait := Wait(s.receipts[id], s.now);
            var t := Next(s, Tick(wait));
            && 0 <= wait <= 64 * SECOND
            && (Candidate(t, id) || Next(t, Reap).receipts[id].status == DeadLetter)
  {
    InitialInv(catalog, now);
    RunKeeps(Initial(catalog, now), events);
    var s := Run(Initial(catalog, now), events);
    assert ReceiptOk(s.receipts[id], s.now);
    var t := Next(s, Tick(Wait(s.receipts[id], s.now)));
    assert Held(t, id) == Held(s, id);
  }

  /** Whenever some receipt is claimable, the claim statement finds a first one. */
  lemma {:induction false} SomeFirst(s: State, among: set<nat>, start: nat) returns (id: nat)
    requires among <= s.receipts.Keys
    requires Candidate(s, start)
    ensures Candidate(s, id) && Before(s.receipts[id], id, s.receipts[start], start)
    ensures forall j <- among :: Candidate(s, j) ==> Before(s.receipts[id], id, s.receipts[j], j)
    decreases |among|
  {
    if among == {} {
      id := start;
    } else {
      var k :| k in among;
      if Candidate(s, k) && Before(s.receipts[k], k, s.receipts[start], start) {
        id := SomeFirst(s, among - {k}, k);
      } else {
        id := SomeFirst(s, among - {k}, start);
      }
    }
  }

  /** An idle worker with a fresh lease takes a claimable receipt, and every
      receipt it passes over arrived no earlier. */
  lemma ClaimFindsWork(s: State, w: nat, lease: nat, id: nat) returns (taken: nat)
    requires Candidate(s, id) && WorkerOf(s, w).phase.Idle? && lease !in s.leases
    ensures First(s, taken)
    ensures NextClaim(s, w, taken, lease).receipts[taken].lease == Some(lease)
    ensures WorkerOf(NextClaim(s, w, taken, lease), w).phase.Holding?
  {
    taken := SomeFirst(s, s.receipts.Keys, id);
  }

  // ---------------------------------------------------------------- retry delays

  /** The delay a step schedules for a receipt, in microseconds. */
  function Delay(s: State, e: Event, id: nat): int {
    var t := Next(s, e);
    if id in s.receipts && id in t.receipts
       && s.receipts[id].status == Processing && t.receipts[id].status == Pending
    then t.receipts[id].availableAt - s.now else 0
  }

  function TotalDelay(s: State, events: seq<Event>, id: nat): int {
    if events == [] then 0
    else
      var n := |events| - 1;
      TotalDelay(s, events[..n], id) + Delay(Run(s, events[..n]), events[n], id)
  }

  /** Retries still to come from attempt `k` on, in seconds. */
  function DelaysFrom(k: int): int
    decreases MAX_ATTEMPTS - k
  {
    if k >= MAX_ATTEMPTS then 0 else RetrySeconds(k) + DelaysFrom(k + 1)
  }

  function DelayBudget(r: Receipt): int {
    if r.status == Pending then DelaysFrom(r.attempts + 1) * SECOND
    else if r.status == Processing then DelaysFrom(r.attempts) * SECOND
    else 0
  }

  lemma {:induction false} DelaysPositive(k: int)
    ensures 0 <= DelaysFrom(k + 1) <= DelaysFrom(k)
    decreases MAX_ATTEMPTS - k
  {
    RetryBounds(k);
    RetryBounds(k + 1);
    if k < MAX_ATTEMPTS {
      DelaysPositive(k + 1);
    }
  }

  lemma DelaysSum()
    ensures DelaysFrom(1) == 127
  {
    assert Pow2(2) == 4;
    assert Pow2(4) == 16;
    assert Pow2(6) == 64;
    assert DelaysFrom(6) == 96;
    assert DelaysFrom(3) == 124;
  }

  lemma BudgetAhead(r: Receipt, t: Receipt, now: int)
    requires Becomes(r, t, now) && ReceiptOk(r, now)
    ensures 0 <= DelayBudget(t)
    ensures (if r.status == Processing && t.status == Pending then t.availableAt - now else 0) + DelayBudget(t)
            <= DelayBudget(r)
  {
    DelaysPositive(r.attempts);
    DelaysPositive(r.attempts + 1);
    DelaysPositive(r.attempts - 1);
  }

  lemma DelayWithinBudget(s: State, e: Event, id: nat)
    requires Inv(s) && id in s.receipts && id in Next(s, e).receipts
    ensures 0 <= DelayBudget(Next(s, e).receipts[id])
    ensures Delay(s, e, id) + DelayBudget(Next(s, e).receipts[id]) <= DelayBudget(s.receipts[id])
  {
    RowStep(s, e, id);
    assert ReceiptOk(s.receipts[id], s.now);
    BudgetAhead(s.receipts[id], Next(s, e).receipts[id], s.now);
  }

  lemma BudgetBounds(r: Receipt, now: int)
    requires ReceiptOk(r, now)
    ensures 0 <= DelayBudget(r) <= 127 * SECOND
  {
    DelaysMonotone(r.attempts);
    DelaysSum();
  }

  /** The retry delays of a receipt add up to at most 127 seconds in any run. */
  lemma {:induction false} RetryDelaysBounded(s: State, events: seq<Event>, id: nat)
    requires Inv(s) && id in s.receipts
    ensures var t := Run(s, events);
            TotalDelay(s, events, id) + (if id in t.receipts then DelayBudget(t.receipts[id]) else 0)
            <= DelayBudget(s.receipts[id])
    ensures 0 <= DelayBudget(s.receipts[id]) <= 127 * SECOND
  {
    assert ReceiptOk(s.receipts[id], s.now);
    BudgetBounds(s.receipts[id], s.now);
    if events != [] {
      var n := |events| - 1;
      RetryDelaysBounded(s, events[..n], id);
      RunKeeps(s, events[..n]);
      var t, u := Run(s, events[..n]), Run(s, events);
      if id in t.receipts && id in u.receipts {
        DelayWithinBudget(t, events[n], id);
      } else if id in t.receipts {
        assert ReceiptOk(t.receipts[id], t.now);
        BudgetBounds(t.receipts[id], t.now);
      } else {
        IssuedStays(s, events[..n], id);
        GoneStaysGone(t, events[n], id);
      }
    }
  }

  lemma {:induction false} DelaysMonotone(k: int)
    requires 0 <= k
    ensures 0 <= DelaysFrom(k + 1) <= DelaysFrom(1)
    ensures 1 <= k ==> 0 <= DelaysFrom(k) <= DelaysFrom(1)
  {
    DelaysPositive(k);
    if k > 0 {
      DelaysMonotone(k - 1);
    }
  }
}
