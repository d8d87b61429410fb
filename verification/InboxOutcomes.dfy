/** What becomes of a receipt, in the terms of its columns: who may take it and for
    how long, how a failure ends, why it is given up, how long it is kept. */
module InboxOutcomes {
  import opened Sql
  import opened Subscriptions
  import opened Polar
  import opened Register
  import opened Inbox
  import opened InboxSafety
  import opened InboxTheorems
  import opened Translation

  // ------------------------------------------------------------------ changes of a row

  /** Who changes a receipt's row, and under what condition. */
  predicate Alters(s: State, e: Event, id: nat)
    requires id in s.receipts
  {
    var r := s.receipts[id];
    match e
    case Reap => Exhausted(r, s.now) && !Held(s, id)
    case Claim(w, i, lease) => i == id && lease !in s.leases && Candidate(s, id)
    case Commit(w, _) =>
      var p := WorkerOf(s, w).phase;
      p.Completing? && p.id == id && r.lease == Some(p.lease)
    case Fail(w) =>
      var p := WorkerOf(s, w).phase;
      p.Failing? && p.id == id && HoldsLease(r, p.lease) && !Held(s, id)
    case _ => false
  }

  function Altered(s: State, e: Event, id: nat): Receipt
    requires id in s.receipts
  {
    var r := s.receipts[id];
    match e
    case Reap => Reaped(r)
    case Claim(_, _, lease) => Inbox.Claimed(r, lease, s.now)
    case Commit(w, _) =>
      var p := WorkerOf(s, w).phase;
      if p.Completing? then Finished(r, p.ignored, p.tx.began) else r
    case Fail(w) =>
      var p := WorkerOf(s, w).phase;
      if p.Failing? then Inbox.Failed(r, FailStatus(p.permanent, p.attempts), p.attempts, s.now) else r
    case _ => r
  }

  lemma ActorPhase(s: State, e: Event)
    requires Inv(s) && Actor(e).Some?
    ensures PhaseOk(s, WorkerOf(s, Actor(e).value).phase)
  {
  }

  lemma QuietStep(s: State, e: Event, id: nat)
    requires Inv(s) && id in s.receipts && !e.Reap? && !e.Claim? && !e.Commit? && !e.Fail? && !e.Cleanup?
    ensures id in Next(s, e).receipts && Next(s, e).receipts[id] == s.receipts[id]
  {
    match e
    case Sync(w, at, value) => assert Next(s, e).receipts == s.receipts;
    case _ =>
  }

  lemma RowChanges(s: State, e: Event, id: nat)
    requires Inv(s) && id in s.receipts && id in Next(s, e).receipts
    ensures || Next(s, e).receipts[id] == s.receipts[id]
            || (Alters(s, e, id) && Next(s, e).receipts[id] == Altered(s, e, id))
  {
    match e
    case Reap =>
    case Cleanup =>
    case Claim(_, _, _) =>
    case Commit(_, _) => ActorPhase(s, e);
    case Fail(_) =>
    case _ => QuietStep(s, e, id);
  }

  /** Only cleanup removes a row, and only of a finished receipt. */
  lemma RowsStay(s: State, e: Event, id: nat)
    requires Inv(s) && id in s.receipts
    ensures id in Next(s, e).receipts || (e.Cleanup? && Old(s.receipts[id], s.now))
  {
    if !e.Reap? && !e.Claim? && !e.Commit? && !e.Fail? && !e.Cleanup? {
      QuietStep(s, e, id);
    }
  }

  // ----------------------------------------------------------------------- claims

  /** A receipt that a worker may take: fewer than eight attempts, and due for a first
      or another one, or left behind for more than a minute. */
  predicate Due(r: Receipt, now: int) {
    && r.attempts < 8 && r.availableAt <= now
    && (r.status == Pending
        || (r.status == Processing && r.lockedAt.Some? && r.lockedAt.value + 60 * SECOND < now))
  }

  predicate Locked(s: State, id: nat) {
    exists w <- s.workers ::
      (s.workers[w].phase.InTx? || s.workers[w].phase.Completing?) && s.workers[w].phase.id == id
  }

  predicate Earlier(a: Receipt, i: nat, b: Receipt, j: nat) {
    a.receivedAt < b.receivedAt || (a.receivedAt == b.receivedAt && i < j)
  }

  lemma DueIsCandidate(s: State, id: nat)
    requires id in s.receipts
    ensures Candidate(s, id) <==> Due(s.receipts[id], s.now) && !Locked(s, id)
  {
    assert Locked(s, id) <==> Held(s, id);
  }

  /** A claim takes the due receipt that came first, and leaves it processing, under
      the new lease, as of now, with one more attempt. */
  lemma ClaimTakesOldest(s: State, w: nat, id: nat, lease: nat)
    ensures var t := NextClaim(s, w, id, lease);
            if t == s then
              || !WorkerOf(s, w).phase.Idle? || lease in s.leases
              || id !in s.receipts || !Due(s.receipts[id], s.now) || Locked(s, id)
              || exists j <- s.receipts ::
                   Due(s.receipts[j], s.now) && !Locked(s, j) && Earlier(s.receipts[j], j, s.receipts[id], id)
            else
              && id in s.receipts && Due(s.receipts[id], s.now) && !Locked(s, id)
              && (forall j <- s.receipts ::
                    Due(s.receipts[j], s.now) && !Locked(s, j) ==> !Earlier(s.receipts[j], j, s.receipts[id], id))
              && t.receipts == s.receipts[id := s.receipts[id].(
                   status := Processing, attempts := s.receipts[id].attempts + 1,
                   lockedAt := Some(s.now), lease := Some(lease))]
              && WorkerOf(t, w).phase == Holding(id, lease, s.receipts[id].attempts + 1)
  {
    forall j | j in s.receipts ensures Candidate(s, j) <==> Due(s.receipts[j], s.now) && !Locked(s, j) {
      DueIsCandidate(s, j);
    }
  }

  /** As long as its holder does nothing and a minute has not passed since the claim,
      a processing receipt stays as it is: nobody takes it over, reaps it or writes it. */
  lemma {:induction false} LeaseLastsAMinute(s: State, events: seq<Event>, w: nat, id: nat)
    requires Inv(s) && id in s.receipts && s.receipts[id].status == Processing
    requires !WorkerOf(s, w).phase.Idle? && s.receipts[id].lease == Some(WorkerOf(s, w).phase.lease)
    requires forall e <- events :: Actor(e) != Some(w)
    requires Run(s, events).now <= s.receipts[id].lockedAt.value + 60 * SECOND
    ensures id in Run(s, events).receipts && Run(s, events).receipts[id] == s.receipts[id]
    ensures WorkerOf(Run(s, events), w) == WorkerOf(s, w)
  {
    if events != [] {
      var n := |events| - 1;
      var t := Run(s, events[..n]);
      assert events[n] in events && forall e <- events[..n] :: e in events;
      NowGrows(t, events[n]);
      LeaseLastsAMinute(s, events[..n], w, id);
      RunKeeps(s, events[..n]);
      assert ReceiptOk(t.receipts[id], t.now);
      LeaseStep(t, events[n], w, id);
    }
  }

  lemma HolderAlone(s: State, e: Event, w: nat, id: nat)
    requires Inv(s) && id in s.receipts
    requires !WorkerOf(s, w).phase.Idle? && s.receipts[id].lease == Some(WorkerOf(s, w).phase.lease)
    requires Actor(e).Some? && Actor(e) != Some(w) && !WorkerOf(s, Actor(e).value).phase.Idle?
    ensures s.receipts[id].lease != Some(WorkerOf(s, Actor(e).value).phase.lease)
  {
  }

  lemma OtherWorkerStays(s: State, e: Event, w: nat)
    requires Actor(e) != Some(w)
    ensures WorkerOf(Next(s, e), w) == WorkerOf(s, w)
  {
  }

  lemma LeaseStep(s: State, e: Event, w: nat, id: nat)
    requires Inv(s) && id in s.receipts && s.receipts[id].status == Processing
    requires !WorkerOf(s, w).phase.Idle? && s.receipts[id].lease == Some(WorkerOf(s, w).phase.lease)
    requires Actor(e) != Some(w)
    requires s.receipts[id].lockedAt.Some? && s.now <= s.receipts[id].lockedAt.value + 60 * SECOND
    ensures id in Next(s, e).receipts && Next(s, e).receipts[id] == s.receipts[id]
    ensures WorkerOf(Next(s, e), w) == WorkerOf(s, w)
  {
    OtherWorkerStays(s, e, w);
    RowsStay(s, e, id);
    RowChanges(s, e, id);
    if Alters(s, e, id) && (e.Commit? || e.Fail?) {
      HolderAlone(s, e, w, id);
    }
  }

  lemma NowGrows(s: State, e: Event)
    ensures s.now <= Next(s, e).now
  {
  }

  /** The step gives the receipt a new lease. */
  predicate Taken(s: State, e: Event, id: nat) {
    id in s.receipts && id in Next(s, e).receipts
    && Next(s, e).receipts[id].lease.Some? && Next(s, e).receipts[id].lease != s.receipts[id].lease
  }

  function TimesTaken(s: State, events: seq<Event>, id: nat): nat {
    if events == [] then 0
    else
      var n := |events| - 1;
      TimesTaken(s, events[..n], id) + if Taken(Run(s, events[..n]), events[n], id) then 1 else 0
  }

  lemma AttemptStep(s: State, e: Event, id: nat)
    requires Inv(s) && id in s.receipts && id in Next(s, e).receipts
    ensures Next(s, e).receipts[id].attempts == s.receipts[id].attempts + if Taken(s, e, id) then 1 else 0
  {
    RowChanges(s, e, id);
    assert s.receipts[id].lease.Some? ==> s.receipts[id].lease.value in s.leases;
  }

  lemma NewReceiptStep(s: State, e: Event, id: nat)
    requires Inv(s) && id !in s.receipts && id in Next(s, e).receipts
    ensures id !in s.issued && Next(s, e).receipts[id].attempts == 0 && Next(s, e).receipts[id].status == Pending
  {
  }

  lemma {:induction false} NotIssuedNotTaken(s: State, events: seq<Event>, id: nat)
    requires Inv(s) && id !in Run(s, events).issued
    ensures TimesTaken(s, events, id) == 0 && id !in s.issued
  {
    RunKeeps(s, events);
    if events != [] {
      var n := |events| - 1;
      RunKeeps(s, events[..n]);
      if id in Run(s, events[..n]).issued {
        IssuedStep(Run(s, events[..n]), events[n], id);
      }
      NotIssuedNotTaken(s, events[..n], id);
    }
  }

  lemma IssuedStep(s: State, e: Event, id: nat)
    requires id in s.issued
    ensures id in Next(s, e).issued
  {
  }

  /** In every run the attempts of a receipt are the times it has been claimed. */
  lemma {:induction false} AttemptsAreClaims(catalog: Catalog, now: int, events: seq<Event>, id: nat)
    requires id in Run(Initial(catalog, now), events).receipts
    ensures Run(Initial(catalog, now), events).receipts[id].attempts
            == TimesTaken(Initial(catalog, now), events, id)
  {
    var s := Initial(catalog, now);
    InitialInv(catalog, now);
    if events != [] {
      var n := |events| - 1;
      var t := Run(s, events[..n]);
      RunKeeps(s, events[..n]);
      if id in t.receipts {
        AttemptsAreClaims(catalog, now, events[..n], id);
        AttemptStep(t, events[n], id);
      } else {
        NewReceiptStep(t, events[n], id);
        NotIssuedNotTaken(s, events[..n], id);
      }
    }
  }

  // --------------------------------------------------------------------- failures

  /** 1, 2, 4, ..., 128 and 256 seconds, and 300 from then on. */
  lemma RetryTable(attempt: int)
    ensures RetrySeconds(attempt) ==
            if attempt <= 1 then 1
            else if attempt <= 9 then [1, 2, 4, 8, 16, 32, 64, 128, 256][attempt - 1]
            else 300
  {
    assert Pow2(2) == 4;
    assert Pow2(4) == 16;
    assert Pow2(6) == 64;
    assert Pow2(8) == 256;
    if attempt > 9 {
      PowGrows(9, attempt - 1);
      assert Pow2(9) == 512;
    }
  }

  /** How a receipt looks after a failed attempt: given up if the failure is permanent
      or the attempt was the eighth, and otherwise waiting for its retry. */
  predicate FailedRow(r: Receipt, permanent: bool, now: int) {
    && r.lease.None? && r.lockedAt.None?
    && (r.status == DeadLetter <==> permanent || r.attempts >= 8)
    && (r.status == Pending <==> !permanent && r.attempts < 8)
    && (r.status == Pending ==> r.availableAt == now + RetrySeconds(r.attempts) * SECOND)
  }

  /** `fail`: where the row is free and still carries the lease, the receipt ends up so,
      all else as before; where not, nothing changes. */
  lemma FailDecides(s: State, w: nat)
    requires Inv(s) && WorkerOf(s, w).phase.Failing?
    ensures var p := WorkerOf(s, w).phase;
            var t := NextFail(s, w);
            if !Locked(s, p.id) && p.id in s.receipts && s.receipts[p.id].lease == Some(p.lease) then
              && p.id in t.receipts && t.receipts == s.receipts[p.id := t.receipts[p.id]]
              && FailedRow(t.receipts[p.id], p.permanent, s.now)
              && t.receipts[p.id].attempts == s.receipts[p.id].attempts
              && WorkerOf(t, w).phase.Idle?
            else t.receipts == s.receipts
  {
    var p := WorkerOf(s, w).phase;
    assert PhaseOk(s, p);
    assert Locked(s, p.id) <==> Held(s, p.id);
    if p.id in s.receipts {
      assert ReceiptOk(s.receipts[p.id], s.now);
    }
  }

  /** The step gives a receipt up for a reason: its worker failed for good or failed
      the eighth attempt, or left the eighth attempt behind for more than a minute. */
  predicate GivesUp(s: State, e: Event, id: nat) {
    id in s.receipts && s.receipts[id].status == Processing &&
    match e
    case Fail(w) =>
      var p := WorkerOf(s, w).phase;
      p.Failing? && p.id == id && s.receipts[id].lease == Some(p.lease) && (p.permanent || s.receipts[id].attempts == 8)
    case Reap =>
      s.receipts[id].attempts == 8 && s.receipts[id].lockedAt.Some?
      && s.receipts[id].lockedAt.value + 60 * SECOND < s.now
    case _ => false
  }

  lemma DeadStep(s: State, e: Event, id: nat)
    requires Inv(s) && id in Next(s, e).receipts && Next(s, e).receipts[id].status == DeadLetter
    ensures id in s.receipts
    ensures s.receipts[id].status == DeadLetter || GivesUp(s, e, id)
  {
    if id !in s.receipts {
      NewReceiptStep(s, e, id);
    } else {
      RowChanges(s, e, id);
      assert ReceiptOk(s.receipts[id], s.now);
      if e.Fail? {
        ActorPhase(s, e);
      }
    }
  }

  /** In every run a dead-lettered receipt was given up for one of these reasons. */
  lemma {:induction false} DeadLetterHasCause(catalog: Catalog, now: int, events: seq<Event>, id: nat)
    returns (k: nat)
    requires var s := Run(Initial(catalog, now), events);
             id in s.receipts && s.receipts[id].status == DeadLetter
    ensures k < |events| && GivesUp(Run(Initial(catalog, now), events[..k]), events[k], id)
  {
    InitialInv(catalog, now);
    var n := |events| - 1;
    RunKeeps(Initial(catalog, now), events[..n]);
    DeadStep(Run(Initial(catalog, now), events[..n]), events[n], id);
    if GivesUp(Run(Initial(catalog, now), events[..n]), events[n], id) {
      k := n;
    } else {
      k := DeadLetterHasCause(catalog, now, events[..n], id);
      assert events[..n][..k] == events[..k];
    }
  }

  /** The step makes a worker's failure permanent: the handler says so, or its value
      cannot be translated, or continues a grace that ends before it starts. */
  ghost predicate FailsForGood(s: State, e: Event, w: nat) {
    match e
    case Abort(v, permanent) => v == w && permanent
    case Sync(v, at, value) =>
      v == w && (!Translates(s.catalog, at, value)
                 || (WorkerOf(s, w).read.Some? && !PairOrdered(WorkerOf(s, w).read.value.1)))
    case _ => false
  }

  lemma PermanentStep(s: State, e: Event, w: nat)
    requires WorkerOf(Next(s, e), w).phase.Failing? && WorkerOf(Next(s, e), w).phase.permanent
    ensures WorkerOf(Next(s, e), w).phase == WorkerOf(s, w).phase || FailsForGood(s, e, w)
  {
    match e
    case Sync(v, at, value) =>
      var read := ReadRow(s, v, value.organization);
      TranslatesExactly(s.catalog, if read.Some? then read.value else None, at, value);
    case _ =>
  }

  /** In every run a permanent failure of a worker was declared by its handler or met
      in translating its value. */
  lemma {:induction false} PermanentHasCause(s: State, events: seq<Event>, w: nat) returns (k: nat)
    requires var p := WorkerOf(Run(s, events), w).phase; p.Failing? && p.permanent
    requires !(WorkerOf(s, w).phase.Failing? && WorkerOf(s, w).phase.permanent)
    ensures k < |events| && FailsForGood(Run(s, events[..k]), events[k], w)
  {
    var n := |events| - 1;
    var t := Run(s, events[..n]);
    PermanentStep(t, events[n], w);
    if FailsForGood(t, events[n], w) {
      k := n;
    } else {
      k := PermanentHasCause(s, events[..n], w);
      assert events[..n][..k] == events[..k];
    }
  }

  // ------------------------------------------------------------------- completion

  lemma BeganStep(s: State, e: Event, w: nat)
    requires WorkerOf(Next(s, e), w).phase.Open()
    ensures || (e == Begin(w) && WorkerOf(Next(s, e), w).phase.tx.began == s.now)
            || (WorkerOf(s, w).phase.Open()
                && WorkerOf(Next(s, e), w).phase.tx.began == WorkerOf(s, w).phase.tx.began)
  {
    if Actor(e) != Some(w) {
      OtherWorkerStays(s, e, w);
    }
  }

  /** An open transaction is dated with the instant at which its worker began it. */
  lemma {:induction false} BeganThen(catalog: Catalog, now: int, events: seq<Event>, w: nat) returns (k: nat)
    requires WorkerOf(Run(Initial(catalog, now), events), w).phase.Open()
    ensures k < |events| && events[k] == Begin(w)
    ensures Run(Initial(catalog, now), events[..k]).now
            == WorkerOf(Run(Initial(catalog, now), events), w).phase.tx.began
  {
    var n := |events| - 1;
    var t := Run(Initial(catalog, now), events[..n]);
    BeganStep(t, events[n], w);
    if WorkerOf(t, w).phase.Open()
       && WorkerOf(Run(Initial(catalog, now), events), w).phase.tx.began == WorkerOf(t, w).phase.tx.began {
      k := BeganThen(catalog, now, events[..n], w);
      assert events[..n][..k] == events[..k];
    } else {
      k := n;
    }
  }

  predicate Done(r: Receipt) {
    r.status == Processed || r.status == Ignored
  }

  lemma DoneStep(s: State, e: Event, id: nat)
    requires Inv(s) && id in Next(s, e).receipts && Done(Next(s, e).receipts[id])
    ensures id in s.receipts
    ensures || (Done(s.receipts[id]) && Next(s, e).receipts[id] == s.receipts[id])
            || (e.Commit? && WorkerOf(s, e.worker).phase.Completing?
                && WorkerOf(s, e.worker).phase.id == id
                && Next(s, e).receipts[id].processedAt == Some(WorkerOf(s, e.worker).phase.tx.began))
  {
    if id !in s.receipts {
      NewReceiptStep(s, e, id);
    } else {
      RowChanges(s, e, id);
    }
  }

  /** In every run a finished receipt is dated with the beginning of the transaction that
      finished it: some worker began it then and committed it later. */
  lemma {:induction false} FinishedHasCause(catalog: Catalog, now: int, events: seq<Event>, id: nat)
    returns (w: nat, began: nat, committed: nat)
    requires var s := Run(Initial(catalog, now), events); id in s.receipts && Done(s.receipts[id])
    ensures began < committed < |events|
    ensures events[began] == Begin(w) && events[committed].Commit? && events[committed].worker == w
    ensures Run(Initial(catalog, now), events).receipts[id].processedAt
            == Some(Run(Initial(catalog, now), events[..began]).now)
  {
    InitialInv(catalog, now);
    var n := |events| - 1;
    var t := Run(Initial(catalog, now), events[..n]);
    RunKeeps(Initial(catalog, now), events[..n]);
    DoneStep(t, events[n], id);
    if Done(t.receipts[id]) && Run(Initial(catalog, now), events).receipts[id] == t.receipts[id] {
      w, began, committed := FinishedHasCause(catalog, now, events[..n], id);
    } else {
      w, committed := events[n].worker, n;
      began := BeganThen(catalog, now, events[..n], w);
    }
    assert events[..n][..began] == events[..began];
  }

  // -------------------------------------------------------------------- retention

  /** Whatever has become of a receipt that was claimed at `since`: it is unfinished,
      or finished in a transaction begun at that time or later. */
  predicate FinishedSince(s: State, id: nat, since: int) {
    && id in s.receipts
    && (s.receipts[id].lockedAt.Some? ==> s.receipts[id].lockedAt.value >= since)
    && (s.receipts[id].status in {Processed, Ignored} ==>
          s.receipts[id].processedAt.Some? && s.receipts[id].processedAt.value >= since)
    && (forall w <- s.workers :: s.workers[w].phase.Open() && s.workers[w].phase.id == id ==>
          s.workers[w].phase.tx.began >= since)
  }

  lemma OpenSince(s: State, e: Event, id: nat, since: int, w: nat)
    requires FinishedSince(s, id, since) && since <= s.now
    requires var p := WorkerOf(Next(s, e), w).phase; p.Open() && p.id == id
    ensures WorkerOf(Next(s, e), w).phase.tx.began >= since
  {
    if Actor(e) != Some(w) {
      OtherWorkerStays(s, e, w);
    }
  }

  lemma RetentionStep(s: State, e: Event, id: nat, since: int)
    requires Inv(s) && FinishedSince(s, id, since) && since <= s.now && s.now <= since + 30 * DAY
    ensures FinishedSince(Next(s, e), id, since)
  {
    RowsStay(s, e, id);
    RowChanges(s, e, id);
    forall w | w in Next(s, e).workers && Next(s, e).workers[w].phase.Open() && Next(s, e).workers[w].phase.id == id
      ensures Next(s, e).workers[w].phase.tx.began >= since
    {
      OpenSince(s, e, id, since, w);
    }
  }

  /** A receipt is kept for thirty days after it was claimed, whatever becomes of it. */
  lemma {:induction false} KeptThirtyDays(s: State, events: seq<Event>, id: nat, since: int)
    requires Inv(s) && FinishedSince(s, id, since) && since <= s.now
    requires Run(s, events).now <= since + 30 * DAY
    ensures FinishedSince(Run(s, events), id, since) && since <= Run(s, events).now
  {
    if events != [] {
      var n := |events| - 1;
      NowGrows(Run(s, events[..n]), events[n]);
      KeptThirtyDays(s, events[..n], id, since);
      RunKeeps(s, events[..n]);
      RetentionStep(Run(s, events[..n]), events[n], id, since);
    }
  }

  /** A receipt that has just been claimed starts these thirty days. */
  lemma ClaimStartsRetention(s: State, w: nat, id: nat, lease: nat)
    requires Inv(s) && NextClaim(s, w, id, lease) != s
    ensures FinishedSince(NextClaim(s, w, id, lease), id, s.now)
  {
    forall v | v in s.workers && s.workers[v].phase.Open() ensures s.workers[v].phase.id != id {
      assert !Held(s, id);
    }
  }

  /** Thirty days after the transaction that finished it, a receipt may go. */
  lemma CleanupDeletesOld(s: State, id: nat)
    requires id in s.receipts
    ensures id in NextCleanup(s).receipts <==>
              !(s.receipts[id].status in {Processed, Ignored}
                && s.receipts[id].processedAt.Some? && s.receipts[id].processedAt.value + 30 * DAY < s.now)
    ensures id in NextCleanup(s).receipts ==> NextCleanup(s).receipts[id] == s.receipts[id]
  {
  }
}
