/** The inbox tables and workers as mutable state, the statements as methods, and
    `WebhookJob.RunOnce` on top of them with every other actor interleaved. */
module BillingStore {
  import opened Sql
  import opened Subscriptions
  import opened Polar
  import opened Register
  import opened Inbox
  import opened InboxSafety
  import opened InboxTheorems
  import opened Translation
  import InboxOutcomes
  import InboxGrace

  newtype int32 = x: int | -0x8000_0000 <= x < 0x8000_0000

  /** `webhookRetrySeconds`: the doubling stops early enough not to overflow. */
  method WebhookRetrySeconds(attempt: int32) returns (seconds: int32)
    ensures seconds as int == RetrySeconds(attempt as int)
  {
    var delay: int32 := 1;
    var current: int32 := 1;
    while current < attempt && delay < 300
      invariant 1 <= current
      invariant current <= attempt || current == 1
      invariant 1 <= delay < 600
      invariant delay as int == Pow2(current as int - 1)
      decreases attempt as int - current as int
    {
      delay := delay * 2;
      current := current + 1;
    }
    PowGrows(current as int - 1, attempt as int - 1);
    PowGrows(attempt as int - 1, current as int - 1);
    if delay > 300 {
      return 300;
    }
    seconds := delay;
  }

  /** The upsert that a provider value amounts to, with the grace pair that the row
      read before calls for. */
  predicate ProviderWrite(catalog: Catalog, read: Option<Subscription>, at: int, value: PolarSubscription, w: Write) {
    && Some(w.organization) == value.organization
    && WrittenAs(catalog, at, value, w.row)
    && PairFor(read, at, value, w.row)
  }

  /** One more write has been staged: this provider value's. */
  ghost predicate Adds(catalog: Catalog, read: Option<Subscription>, at: int, value: PolarSubscription,
                       before: seq<Write>, after: seq<Write>)
  {
    exists write: Write :: ProviderWrite(catalog, read, at, value, write) && after == before + [write]
  }

  /** The tables, the workers, and the run that led here. */
  class Store {
    const catalog: Catalog
    const epoch: int
    var now: int
    var receipts: map<nat, Receipt>
    var issued: set<nat>
    var leases: set<nat>
    var register: Rows
    var workers: map<nat, Worker>
    var log: seq<Commitment>
    ghost var history: seq<Event>

    function Snapshot(): State
      reads this
    {
      State(catalog, now, receipts, issued, leases, register, workers, log)
    }

    function PhaseOf(w: nat): Phase
      reads this
    {
      WorkerOf(Snapshot(), w).phase
    }

    /** The rows a worker sees: those committed, under what its transaction has written. */
    function Visible(w: nat): Rows
      reads this
    {
      if PhaseOf(w).InTx? || PhaseOf(w).Completing? then register + PhaseOf(w).tx.overlay else register
    }

    /** Nobody else has an open transaction. */
    ghost predicate Alone(w: nat)
      reads this
    {
      forall v <- workers :: v != w ==> !workers[v].phase.Open()
    }

    /** No other worker has moved. */
    twostate predicate OnlyMoves(w: nat)
      reads this
    {
      w in workers && workers == old(workers)[w := workers[w]]
    }

    /** The tables are in the state to which the history leads. */
    ghost predicate Valid()
      reads this
    {
      Snapshot() == Run(Initial(catalog, epoch), history)
    }

    /** One more event has happened, and nothing else. */
    twostate predicate Did(e: Event)
      reads this
    {
      history == old(history) + [e] && Snapshot() == Next(old(Snapshot()), e)
    }

    constructor (catalog: Catalog, epoch: int)
      ensures Valid() && history == []
      ensures Snapshot() == Initial(catalog, epoch)
    {
      this.catalog, this.epoch, now := catalog, epoch, epoch;
      receipts, issued, leases, register, workers, log := map[], {}, {}, map[], map[], [];
      history := [];
    }

    /** The invariants of all runs hold of the tables. */
    lemma Reachable()
      requires Valid()
      ensures Inv(Snapshot())
    {
      InitialInv(catalog, epoch);
      RunKeeps(Initial(catalog, epoch), history);
    }

    /** No row a worker sees or has read is in disorder. */
    lemma SeenInOrder(w: nat, organization: Option<nat>)
      requires Valid()
      ensures PairOrdered(LastRead(w, organization))
    {
      InboxGrace.PairsStayOrdered(Initial(catalog, epoch), history);
      assert InboxGrace.OrderedWorker(WorkerOf(Snapshot(), w));
    }

    twostate lemma Extends(e: Event)
      requires old(Valid()) && Did(e)
      ensures Valid()
    {
      assert history[..|history| - 1] == old(history);
    }

    /** `InsertBillingWebhookEvent`, with the conflict answer of `Webhook`: a
        retry keeps the original receipt, other bytes are refused. */
    method InsertEvent(id: nat, eventId: string, payloadHash: string) returns (accepted: bool)
      requires Valid() && id !in issued
      modifies this
      ensures Valid() && Did(Insert(id, eventId, payloadHash))
      ensures accepted <==>
                forall j <- old(receipts) ::
                  old(receipts)[j].eventId == eventId ==> old(receipts)[j].payloadHash == payloadHash
      ensures receipts ==
              if exists j <- old(receipts) :: old(receipts)[j].eventId == eventId then old(receipts)
              else old(receipts)[id := Receipt(eventId, payloadHash, Pending, 0, now, None, None, now, None)]
    {
      Reachable();
      history := history + [Insert(id, eventId, payloadHash)];
      if exists j <- receipts :: receipts[j].eventId == eventId {
        var j :| j in receipts && receipts[j].eventId == eventId;
        accepted := receipts[j].payloadHash == payloadHash;
      } else {
        receipts := receipts[id := NewReceipt(eventId, payloadHash, now)];
        issued := issued + {id};
        accepted := true;
        assert receipts[id].eventId == eventId;
      }
      Extends(Insert(id, eventId, payloadHash));
    }

    /** `ReapExhaustedBillingWebhookEvents`. */
    method ReapExhausted()
      requires Valid()
      modifies this
      ensures Valid() && Did(Reap) && workers == old(workers)
    {
      var held := set w | w in workers && workers[w].phase.Open() :: workers[w].phase.id;
      assert forall id :: id in held <==> Held(Snapshot(), id);
      receipts := map id | id in receipts ::
        if receipts[id].status == Processing && LeaseExpired(receipts[id], now)
           && receipts[id].attempts >= MAX_ATTEMPTS && id !in held
        then receipts[id].(status := DeadLetter, lockedAt := None, lease := None)
        else receipts[id];
      history := history + [Reap];
      Extends(Reap);
    }

    /** `ClaimBillingWebhookEvent`: the first claimable unlocked receipt, if any. */
    method ClaimEvent(w: nat, lease: nat) returns (claimed: Option<nat>)
      requires Valid() && PhaseOf(w).Idle? && lease !in leases
      modifies this
      ensures Valid()
      ensures claimed.None? ==>
                && Snapshot() == old(Snapshot()) && history == old(history)
                && forall id <- receipts ::
                     !InboxOutcomes.Due(receipts[id], now) || InboxOutcomes.Locked(Snapshot(), id)
      ensures claimed.Some? ==>
                && First(old(Snapshot()), claimed.value)
                && Did(Claim(w, claimed.value, lease))
      ensures claimed.Some? ==>
                && lease in leases && claimed.value in receipts
                && PhaseOf(w) == Holding(claimed.value, lease, receipts[claimed.value].attempts)
                && OnlyMoves(w)
    {
      if id :| id in receipts && Candidate(Snapshot(), id) {
        var _ := ClaimFindsWork(Snapshot(), w, lease, id);
        var taken :| taken in receipts && First(Snapshot(), taken);
        var r := receipts[taken];
        r := r.(status := Processing, attempts := r.attempts + 1, lockedAt := Some(now), lease := Some(lease));
        workers := workers[w := WorkerOf(Snapshot(), w).(phase := Holding(taken, lease, r.attempts))];
        receipts := receipts[taken := r];
        leases := leases + {lease};
        history := history + [Claim(w, taken, lease)];
        Extends(Claim(w, taken, lease));
        return Some(taken);
      }
      claimed := None;
      forall id | id in receipts
        ensures !InboxOutcomes.Due(receipts[id], now) || InboxOutcomes.Locked(Snapshot(), id)
      {
        InboxOutcomes.DueIsCandidate(Snapshot(), id);
      }
    }

    /** `GetClaimedBillingWebhookEvent ... FOR UPDATE` in a new transaction. The
        worker is left waiting when another transaction holds the row, and lets
        go when the row no longer carries its lease. */
    method LockClaimed(w: nat)
      requires Valid() && PhaseOf(w).Holding?
      modifies this
      ensures Valid() && Did(Begin(w)) && OnlyMoves(w)
      ensures PhaseOf(w).Idle? ==> LeaseGone(Snapshot(), old(PhaseOf(w).lease))
      ensures PhaseOf(w).Idle? || PhaseOf(w).Holding? || PhaseOf(w).InTx?
      ensures !PhaseOf(w).Idle? ==>
                PhaseOf(w).lease == old(PhaseOf(w).lease) && PhaseOf(w).id == old(PhaseOf(w).id)
      ensures PhaseOf(w).InTx? ==> PhaseOf(w).tx.staged == []
      ensures old(Alone(w)) && !old(LeaseGone(Snapshot(), PhaseOf(w).lease)) ==> PhaseOf(w).InTx?
    {
      Reachable();
      var p := PhaseOf(w);
      assert PhaseOk(Snapshot(), p);
      LeaseWhere(Snapshot(), p);
      if !Held(Snapshot(), p.id) {
        if p.id in receipts && receipts[p.id].lease == Some(p.lease) && receipts[p.id].status == Processing {
          workers := workers[w := workers[w].(phase := InTx(p.id, p.lease, p.attempts, Tx(now, [], map[])))];
        } else {
          NotHeldIsGone(Snapshot(), w);
          workers := workers[w := workers[w].(phase := Idle)];
        }
      }
      history := history + [Begin(w)];
      Extends(Begin(w));
    }

    /** The first read of `syncPolarSubscription`. */
    method ReadSubscription(w: nat, organization: nat)
      requires Valid() && (PhaseOf(w).Idle? || PhaseOf(w).InTx?)
      modifies this
      ensures Valid() && Did(Read(w, organization)) && OnlyMoves(w)
      ensures PhaseOf(w) == old(PhaseOf(w))
      ensures WorkerOf(Snapshot(), w).read == Some((organization, RowOf(old(Visible(w)), organization)))
    {
      var view := View(Snapshot(), w);
      workers := workers[w := Worker(PhaseOf(w), Some((organization, RowOf(view, organization))))];
      history := history + [Read(w, organization)];
      Extends(Read(w, organization));
    }

    /** Another transaction has written the organization's row. */
    ghost predicate RowTaken(organization: nat, self: nat)
      reads this
    {
      exists v <- workers ::
        v != self && (workers[v].phase.InTx? || workers[v].phase.Completing?)
        && organization in workers[v].phase.tx.overlay
    }

    /** The row that the worker read last, if it is of this organization. */
    function LastRead(w: nat, organization: Option<nat>): Option<Subscription>
      reads this
    {
      var read := WorkerOf(Snapshot(), w).read;
      if read.Some? && Some(read.value.0) == organization then read.value.1 else None
    }

    /** Build the request, and upsert it where the row is free. */
    method StageValue(w: nat, at: int, value: PolarSubscription) returns (done: bool)
      requires PhaseOf(w).InTx?
      requires value.status.PPastDue? && value.organization.Some? ==>
                 var read := WorkerOf(Snapshot(), w).read; read.Some? && Some(read.value.0) == value.organization
      modifies this`workers
      ensures Snapshot() == NextSync(old(Snapshot()), w, at, value) && OnlyMoves(w)
      ensures var p, built := old(PhaseOf(w)), BuildRequest(catalog, old(LastRead(w, value.organization)), at, value);
              && (built.Err? ==> !done && PhaseOf(w) == Failing(p.id, p.lease, p.attempts, true))
              && (built.Ok? && !done ==> PhaseOf(w) == p && old(RowTaken(value.organization.value, w)))
              && (done ==>
                    && built.Ok? && PhaseOf(w).InTx? && PhaseOf(w).id == p.id && PhaseOf(w).lease == p.lease
                    && PhaseOf(w).tx.staged
                       == p.tx.staged + [Write(value.organization.value, Excluded(built.value))])
    {
      var p := PhaseOf(w);
      var built := BuildRequest(catalog, LastRead(w, value.organization), at, value);
      done := false;
      if built.Err? {
        workers := workers[w := workers[w].(phase := Failing(p.id, p.lease, p.attempts, true))];
        return;
      }
      var organization := value.organization.value;
      if !OrganizationHeld(Snapshot(), organization, w) {
        var write := Write(organization, Excluded(built.value));
        var row := After(RowOf(register + p.tx.overlay, organization), write.row);
        var tx := p.tx.(staged := p.tx.staged + [write], overlay := p.tx.overlay[organization := row]);
        workers := workers[w := workers[w].(phase := InTx(p.id, p.lease, p.attempts, tx))];
        done := true;
      }
    }

    /** `syncPolarSubscription` from the read on, inside the transaction. It is not
        done when the statement waits for the organization's row, and the value is
        refused when no request can be built from it. */
    method SyncInTransaction(w: nat, at: int, value: PolarSubscription) returns (done: bool)
      requires Valid() && PhaseOf(w).InTx?
      requires value.status.PPastDue? && value.organization.Some? ==>
                 var read := WorkerOf(Snapshot(), w).read; read.Some? && Some(read.value.0) == value.organization
      modifies this
      ensures Valid() && Did(Sync(w, at, value)) && OnlyMoves(w)
      ensures PhaseOf(w).InTx? || (PhaseOf(w).Failing? && PhaseOf(w).permanent)
      ensures PhaseOf(w).lease == old(PhaseOf(w).lease) && PhaseOf(w).id == old(PhaseOf(w).id)
      ensures done ==>
                && PhaseOf(w).InTx? && Translates(catalog, at, value)
                && Adds(catalog, old(LastRead(w, value.organization)), at, value,
                        old(PhaseOf(w)).tx.staged, PhaseOf(w).tx.staged)
      ensures !done && PhaseOf(w).InTx? ==>
                && PhaseOf(w) == old(PhaseOf(w)) && Translates(catalog, at, value)
                && old(RowTaken(value.organization.value, w))
      ensures PhaseOf(w).Failing? ==>
                !Translates(catalog, at, value)
    {
      var seen := LastRead(w, value.organization);
      SeenInOrder(w, value.organization);
      TranslatesExactly(catalog, seen, at, value);
      if Translates(catalog, at, value) {
        WrittenRow(catalog, seen, at, value);
      }
      done := StageValue(w, at, value);
      history := history + [Sync(w, at, value)];
      Extends(Sync(w, at, value));
    }

    /** `CompleteBillingWebhookEvent` in the transaction: it always finds its row. */
    method CompleteEvent(w: nat, ignored: bool)
      requires Valid() && PhaseOf(w).InTx? && (ignored ==> PhaseOf(w).tx.staged == [])
      modifies this
      ensures Valid() && Did(Complete(w, ignored)) && OnlyMoves(w)
      ensures var p := old(PhaseOf(w)); PhaseOf(w) == Completing(p.id, p.lease, p.attempts, p.tx, ignored)
    {
      Reachable();
      LeaseHeldThroughTransaction(Snapshot(), w, ignored);
      var p := PhaseOf(w);
      workers := workers[w := workers[w].(phase := Completing(p.id, p.lease, p.attempts, p.tx, ignored))];
      history := history + [Complete(w, ignored)];
      Extends(Complete(w, ignored));
    }

    /** What the commit makes visible: receipt, register and log together. */
    method Publish(w: nat, reported: bool)
      requires PhaseOf(w).Completing? && PhaseOf(w).id in receipts
      modifies this
      ensures Snapshot() == NextCommit(old(Snapshot()), w, reported) && history == old(history)
    {
      var p := PhaseOf(w);
      var r := receipts[p.id];
      receipts := receipts[p.id := r.(status := if p.ignored then Ignored else Processed,
                                      processedAt := Some(p.tx.began), lockedAt := None, lease := None)];
      register := register + p.tx.overlay;
      if !p.ignored {
        log := log + [Commitment(Some(p.id), p.tx.staged)];
      }
      workers := workers[w := workers[w].(
        phase := if reported then Idle else Failing(p.id, p.lease, p.attempts, false))];
    }

    /** Commit. */
    method CommitTransaction(w: nat, reported: bool)
      requires Valid() && PhaseOf(w).Completing?
      modifies this
      ensures Valid() && Did(Commit(w, reported)) && OnlyMoves(w)
      ensures old(PhaseOf(w).id) in receipts
      ensures receipts[old(PhaseOf(w).id)].status == if old(PhaseOf(w).ignored) then Ignored else Processed
      ensures LeaseGone(Snapshot(), old(PhaseOf(w).lease))
      ensures log == old(log) + if old(PhaseOf(w).ignored) then []
                                else [Commitment(Some(old(PhaseOf(w).id)), old(PhaseOf(w).tx.staged))]
      ensures reported ==> PhaseOf(w).Idle?
      ensures !reported ==>
                && PhaseOf(w).Failing? && !PhaseOf(w).permanent
                && PhaseOf(w).lease == old(PhaseOf(w).lease) && PhaseOf(w).id == old(PhaseOf(w).id)
    {
      Reachable();
      CommitReleases(Snapshot(), w, reported);
      Publish(w, reported);
      history := history + [Commit(w, reported)];
      Extends(Commit(w, reported));
    }

    /** Rollback after an error. */
    method Rollback(w: nat, permanent: bool)
      requires Valid() && (PhaseOf(w).Holding? || PhaseOf(w).Open())
      modifies this
      ensures Valid() && Did(Abort(w, permanent)) && OnlyMoves(w)
      ensures PhaseOf(w).Failing? && PhaseOf(w).permanent == permanent
      ensures PhaseOf(w).lease == old(PhaseOf(w).lease) && PhaseOf(w).id == old(PhaseOf(w).id)
    {
      var p := PhaseOf(w);
      workers := workers[w := workers[w].(phase := Failing(p.id, p.lease, p.attempts, permanent))];
      history := history + [Abort(w, permanent)];
      Extends(Abort(w, permanent));
    }

    /** `FailBillingWebhookEvent` with the status and the delay chosen by `fail`. */
    method UpdateFailed(w: nat) returns (updated: bool)
      requires PhaseOf(w).Failing? && 1 <= PhaseOf(w).attempts <= MAX_ATTEMPTS
      modifies this
      ensures Snapshot() == NextFail(old(Snapshot()), w) && history == old(history)
      ensures updated <==>
                var s, p := old(Snapshot()), old(PhaseOf(w));
                !Held(s, p.id) && p.id in s.receipts && HoldsLease(s.receipts[p.id], p.lease)
    {
      var p := PhaseOf(w);
      var status := Pending;
      if p.permanent || p.attempts >= MAX_ATTEMPTS {
        status := DeadLetter;
      }
      var delay := WebhookRetrySeconds(p.attempts as int32);
      var free := !Held(Snapshot(), p.id);
      updated := free && p.id in receipts && HoldsLease(receipts[p.id], p.lease);
      if updated {
        receipts := receipts[p.id := receipts[p.id].(
          status := status, lockedAt := None, lease := None, availableAt := now + delay as int * SECOND)];
      }
      if free {
        workers := workers[w := workers[w].(phase := Idle)];
      }
    }

    /** `fail`. `updated` tells whether the row still carried the lease. */
    method FailEvent(w: nat) returns (updated: bool)
      requires Valid() && PhaseOf(w).Failing?
      modifies this
      ensures Valid() && Did(Fail(w)) && OnlyMoves(w)
      ensures PhaseOf(w).Idle? || PhaseOf(w).Failing?
      ensures updated <==> old(!Held(Snapshot(), PhaseOf(w).id) && !LeaseGone(Snapshot(), PhaseOf(w).lease))
      ensures !updated ==> receipts == old(receipts)
      ensures PhaseOf(w).Failing? ==> PhaseOf(w) == old(PhaseOf(w)) && Held(Snapshot(), PhaseOf(w).id)
      ensures !updated && PhaseOf(w).Idle? ==> LeaseGone(Snapshot(), old(PhaseOf(w).lease))
      ensures updated ==>
                var id := old(PhaseOf(w)).id;
                && PhaseOf(w).Idle? && id in old(receipts) && id in receipts
                && receipts == old(receipts)[id := receipts[id]]
                && InboxOutcomes.FailedRow(receipts[id], old(PhaseOf(w)).permanent, now)
                && receipts[id].attempts == old(receipts)[id].attempts
    {
      Reachable();
      InboxOutcomes.FailDecides(Snapshot(), w);
      assert PhaseOk(Snapshot(), PhaseOf(w));
      LeaseWhere(Snapshot(), PhaseOf(w));
      updated := UpdateFailed(w);
      history := history + [Fail(w)];
      Extends(Fail(w));
    }

    /** The worker stops: an open transaction is rolled back by the database. */
    method Stop(w: nat)
      requires Valid()
      modifies this
      ensures Valid() && Did(Crash(w)) && OnlyMoves(w)
      ensures PhaseOf(w).Idle?
    {
      workers := workers[w := FRESH_WORKER];
      history := history + [Crash(w)];
      Extends(Crash(w));
    }

    /** Everything the other actors do before this one's next statement. */
    method Others(events: seq<Event>, self: nat)
      requires Valid()
      requires forall e <- events :: Actor(e) != Some(self)
      modifies this
      ensures Valid() && history == old(history) + events
      ensures Snapshot() == Run(old(Snapshot()), events)
      ensures events == [] ==> Snapshot() == old(Snapshot())
      ensures PhaseOf(self) == old(PhaseOf(self))
      ensures WorkerOf(Snapshot(), self) == old(WorkerOf(Snapshot(), self))
      ensures old(leases) <= leases
    {
      var next := Run(Snapshot(), events);
      OthersLeaveWorker(Snapshot(), events, self);
      RunConcat(Initial(catalog, epoch), history, events);
      now, receipts, issued, leases := next.now, next.receipts, next.issued, next.leases;
      register, workers, log := next.register, next.workers, next.log;
      history := history + events;
    }
  }

  lemma OtherLeavesWorker(s: State, e: Event, w: nat)
    requires Actor(e) != Some(w)
    ensures WorkerOf(Next(s, e), w) == WorkerOf(s, w)
    ensures s.leases <= Next(s, e).leases && Next(s, e).catalog == s.catalog
  {
  }

  lemma {:induction false} OthersLeaveWorker(s: State, events: seq<Event>, w: nat)
    requires forall e <- events :: Actor(e) != Some(w)
    ensures WorkerOf(Run(s, events), w) == WorkerOf(s, w)
    ensures s.leases <= Run(s, events).leases && Run(s, events).catalog == s.catalog
  {
    if events != [] {
      var n := |events| - 1;
      assert events[n] in events && forall e <- events[..n] :: e in events;
      OthersLeaveWorker(s, events[..n], w);
      OtherLeavesWorker(Run(s, events[..n]), events[n], w);
    }
  }

  lemma {:induction false} LeaseStaysFresh(s: State, events: seq<Event>, lease: nat)
    requires lease !in s.leases && forall e <- events :: e.Claim? ==> e.lease != lease
    ensures lease !in Run(s, events).leases
  {
    if events != [] {
      var n := |events| - 1;
      assert events[n] in events && forall e <- events[..n] :: e in events;
      LeaseStaysFresh(s, events[..n], lease);
    }
  }

  /** The only row that can carry a worker's lease is the one it claimed. */
  lemma LeaseWhere(s: State, p: Phase)
    requires Inv(s) && !p.Idle? && PhaseOk(s, p)
    ensures !LeaseGone(s, p.lease) <==> p.id in s.receipts && HoldsLease(s.receipts[p.id], p.lease)
  {
    forall id | id in s.receipts && s.receipts[id].lease == Some(p.lease)
      ensures id == p.id && s.receipts[id].status == Processing
    {
      assert ReceiptOk(s.receipts[id], s.now);
    }
  }

  lemma CommitReleases(s: State, w: nat, reported: bool)
    requires Inv(s) && WorkerOf(s, w).phase.Completing?
    ensures LeaseGone(NextCommit(s, w, reported), WorkerOf(s, w).phase.lease)
    ensures WorkerOf(s, w).phase.id in s.receipts
  {
    assert PhaseOk(s, s.workers[w].phase);
  }

  /** Finding no row to lock means the lease is gone. */
  lemma NotHeldIsGone(s: State, w: nat)
    requires Inv(s) && WorkerOf(s, w).phase.Holding? && WorkerOf(NextBegin(s, w), w).phase.Idle?
    ensures LeaseGone(NextBegin(s, w), WorkerOf(s, w).phase.lease)
  {
    var p := s.workers[w].phase;
    assert PhaseOk(s, p);
    forall id | id in s.receipts
      ensures s.receipts[id].lease != Some(p.lease)
    {
      assert ReceiptOk(s.receipts[id], s.now);
    }
  }
}
