/** Invariants of the inbox over every run, and what they give: lease fencing,
    exactly-once commit, and a register explained by the committed log. */
module InboxSafety {
  import opened Sql
  import opened Subscriptions
  import opened Polar
  import opened Register
  import opened Inbox

  // ----------------------------------------------------------------- invariants

  const LONGEST_RETRY: int := 64 * SECOND

  predicate ReceiptOk(r: Receipt, now: int) {
    && (r.status == Processing <==> r.lease.Some?)
    && (r.status == Processing <==> r.lockedAt.Some?)
    && 0 <= r.attempts <= MAX_ATTEMPTS
    && (r.status == Pending ==> r.attempts < MAX_ATTEMPTS && r.availableAt <= now + LONGEST_RETRY)
    && (r.lockedAt.Some? ==> r.lockedAt.value <= now && r.availableAt <= r.lockedAt.value && 1 <= r.attempts)
  }

  predicate ReceiptsOk(s: State) {
    && s.receipts.Keys <= s.issued
    && forall id <- s.receipts ::
      ReceiptOk(s.receipts[id], s.now) && (s.receipts[id].lease.Some? ==> s.receipts[id].lease.value in s.leases)
  }

  /** A lease belongs to one receipt, and an event id to one receipt. */
  predicate Distinct(s: State) {
    forall i, j | i in s.receipts && j in s.receipts && i != j ::
      && s.receipts[i].eventId != s.receipts[j].eventId
      && (s.receipts[i].lease.Some? ==> s.receipts[i].lease != s.receipts[j].lease)
  }

  /** What a worker remembers of its claim. */
  predicate PhaseOk(s: State, p: Phase) {
    p.Idle? || (
      && p.lease in s.leases
      && p.id in s.issued
      && 1 <= p.attempts <= MAX_ATTEMPTS
      && (forall id <- s.receipts :: s.receipts[id].lease == Some(p.lease) ==>
            id == p.id && s.receipts[id].attempts == p.attempts)
      && (p.Open() ==> p.id in s.receipts && s.receipts[p.id].lease == Some(p.lease))
      && (p.Completing? && p.ignored ==> p.tx.staged == []))
  }

  predicate WorkersOk(s: State) {
    && (forall w <- s.workers :: PhaseOk(s, s.workers[w].phase))
    && (forall v, w | v in s.workers && w in s.workers && v != w
          && !s.workers[v].phase.Idle? && !s.workers[w].phase.Idle? ::
          s.workers[v].phase.lease != s.workers[w].phase.lease)
  }

  /** Open transactions are serializable and lock disjoint organizations. */
  ghost predicate TransactionsOk(s: State) {
    && (forall w <- s.workers :: s.workers[w].phase.Open() ==> Serial(s.register, s.workers[w].phase.tx))
    && (forall v, w | v in s.workers && w in s.workers && v != w
          && s.workers[v].phase.Open() && s.workers[w].phase.Open() ::
          s.workers[v].phase.tx.overlay.Keys !! s.workers[w].phase.tx.overlay.Keys)
  }

  function Commits(log: seq<Commitment>, id: nat): nat {
    if log == [] then 0
    else Commits(log[..|log| - 1], id) + if log[|log| - 1].receipt == Some(id) then 1 else 0
  }

  function Writes(log: seq<Commitment>): seq<Write> {
    if log == [] then [] else Writes(log[..|log| - 1]) + log[|log| - 1].writes
  }

  /** The committed effect of a receipt, counted. */
  ghost predicate LogOk(s: State) {
    forall id: nat ::
      && Commits(s.log, id) <= 1
      && (id !in s.issued ==> Commits(s.log, id) == 0)
      && (id in s.receipts ==> (s.receipts[id].status == Processed <==> Commits(s.log, id) == 1))
  }

  /** The register is the replay of the committed log. */
  ghost predicate RegisterOk(s: State) {
    s.register == ReplayAll(map[], Writes(s.log))
  }

  ghost predicate Inv(s: State) {
    ReceiptsOk(s) && Distinct(s) && WorkersOk(s) && TransactionsOk(s) && LogOk(s) && RegisterOk(s)
  }

  lemma InitialInv(catalog: Catalog, now: int)
    ensures Inv(Initial(catalog, now))
  {
  }

  // ------------------------------------------------------------------ log steps

  lemma CommitsAppend(log: seq<Commitment>, c: Commitment, id: nat)
    ensures Commits(log + [c], id) == Commits(log, id) + if c.receipt == Some(id) then 1 else 0
  {
    assert (log + [c])[..|log|] == log;
  }

  lemma WritesAppend(log: seq<Commitment>, c: Commitment)
    ensures Writes(log + [c]) == Writes(log) + c.writes
  {
    assert (log + [c])[..|log|] == log;
  }

  lemma LogAppend(s: State, c: Commitment)
    requires RegisterOk(s)
    ensures ReplayAll(map[], Writes(s.log + [c])) == ReplayAll(s.register, c.writes)
    ensures forall id: nat :: Commits(s.log + [c], id) == Commits(s.log, id) + if c.receipt == Some(id) then 1 else 0
  {
    WritesAppend(s.log, c);
    ReplayConcat(map[], Writes(s.log), c.writes);
    forall id: nat
      ensures Commits(s.log + [c], id) == Commits(s.log, id) + if c.receipt == Some(id) then 1 else 0
    {
      CommitsAppend(s.log, c, id);
    }
  }

  // --------------------------------------------------------- preservation, by step

  lemma InsertKeepsReceipts(s: State, id: nat, eventId: string, payloadHash: string)
    requires ReceiptsOk(s) && Distinct(s)
    ensures ReceiptsOk(NextInsert(s, id, eventId, payloadHash))
    ensures Distinct(NextInsert(s, id, eventId, payloadHash))
  {
  }

  lemma InsertKeeps(s: State, id: nat, eventId: string, payloadHash: string)
    requires Inv(s)
    ensures Inv(NextInsert(s, id, eventId, payloadHash))
  {
    var t := NextInsert(s, id, eventId, payloadHash);
    InsertKeepsReceipts(s, id, eventId, payloadHash);
    assert WorkersOk(t) by {
      forall w | w in t.workers ensures PhaseOk(t, t.workers[w].phase) {
        assert PhaseOk(s, s.workers[w].phase);
      }
    }
  }

  lemma ReapKeepsReceipts(s: State)
    requires ReceiptsOk(s) && Distinct(s) && LogOk(s)
    ensures ReceiptsOk(NextReap(s)) && Distinct(NextReap(s)) && LogOk(NextReap(s))
  {
  }

  lemma ReapKeepsPhase(s: State, p: Phase)
    requires PhaseOk(s, p) && (p.Open() ==> Held(s, p.id))
    ensures PhaseOk(NextReap(s), p)
  {
  }

  lemma ReapKeeps(s: State)
    requires Inv(s)
    ensures Inv(NextReap(s))
  {
    var t := NextReap(s);
    ReapKeepsReceipts(s);
    assert WorkersOk(t) by {
      forall w | w in t.workers ensures PhaseOk(t, t.workers[w].phase) {
        ReapKeepsPhase(s, s.workers[w].phase);
      }
    }
  }

  lemma CleanupKeeps(s: State)
    requires Inv(s)
    ensures Inv(NextCleanup(s))
  {
  }

  lemma RetryBounds(attempt: int)
    ensures 1 <= RetrySeconds(attempt) <= 300
    ensures 1 <= attempt < MAX_ATTEMPTS ==> RetrySeconds(attempt) <= 64
  {
    PowGrows(attempt - 1, 6);
    assert Pow2(6) == 64 by {
      assert Pow2(3) == 8;
    }
  }

  lemma {:induction false} PowGrows(a: int, b: int)
    ensures 1 <= Pow2(a)
    ensures a <= b ==> Pow2(a) <= Pow2(b)
    decreases if b >= 0 then b else 0, if a >= 0 then a else 0
  {
    if a > 0 {
      PowGrows(a - 1, b - 1);
    } else if b > 0 {
      PowGrows(a, b - 1);
    }
  }

  /** A worker moves on within its claim, or lets go of it. */
  lemma WorkerMoves(s: State, w: nat, k: Worker)
    requires Inv(s)
    requires PhaseOk(s, k.phase)
    requires !k.phase.Idle? ==>
               !WorkerOf(s, w).phase.Idle? && k.phase.lease == WorkerOf(s, w).phase.lease
    requires k.phase.Open() ==>
               && Serial(s.register, k.phase.tx)
               && forall v <- s.workers :: v != w && s.workers[v].phase.Open() ==>
                 s.workers[v].phase.tx.overlay.Keys !! k.phase.tx.overlay.Keys
    ensures Inv(s.(workers := s.workers[w := k]))
  {
    var t := s.(workers := s.workers[w := k]);
    assert WorkersOk(t) by {
      forall v | v in t.workers
        ensures PhaseOk(t, t.workers[v].phase)
      {
        assert v != w ==> PhaseOk(s, s.workers[v].phase);
      }
    }
  }

  /** A receipt nobody has locked changes and gives up its lease. */
  lemma Release(s: State, id: nat, r: Receipt)
    requires ReceiptsOk(s) && Distinct(s) && WorkersOk(s)
    requires id in s.receipts && !Held(s, id)
    requires ReceiptOk(r, s.now) && r.lease.None? && r.eventId == s.receipts[id].eventId
    ensures var t := WithReceipt(s, id, r); ReceiptsOk(t) && Distinct(t) && WorkersOk(t)
  {
    var t := WithReceipt(s, id, r);
    forall w | w in s.workers
      ensures PhaseOk(t, t.workers[w].phase)
    {
      assert PhaseOk(s, s.workers[w].phase);
    }
  }

  lemma ReleaseKeeps(s: State, id: nat, r: Receipt)
    requires Inv(s) && id in s.receipts && !Held(s, id) && s.receipts[id].status == Processing
    requires ReceiptOk(r, s.now) && r.lease.None? && r.eventId == s.receipts[id].eventId
    requires r.status != Processed
    ensures Inv(WithReceipt(s, id, r))
  {
    Release(s, id, r);
  }

  /** The first half of a claim: the row takes a fresh lease. */
  lemma TakeLease(s: State, id: nat, lease: nat)
    requires Inv(s) && Candidate(s, id) && lease !in s.leases
    ensures Inv(WithReceipt(s, id, Claimed(s.receipts[id], lease, s.now)).(leases := s.leases + {lease}))
  {
    var t := WithReceipt(s, id, Claimed(s.receipts[id], lease, s.now)).(leases := s.leases + {lease});
    assert ReceiptOk(s.receipts[id], s.now);
    assert WorkersOk(t) by {
      forall w | w in s.workers
        ensures PhaseOk(t, t.workers[w].phase)
      {
        assert PhaseOk(s, s.workers[w].phase);
      }
    }
  }

  /** The second half: the worker remembers it. */
  lemma HoldLease(s: State, w: nat, id: nat)
    requires Inv(s) && WorkerOf(s, w).phase.Idle?
    requires id in s.receipts && s.receipts[id].lease.Some? && 1 <= s.receipts[id].attempts
    requires forall v <- s.workers :: !s.workers[v].phase.Idle? ==>
               Some(s.workers[v].phase.lease) != s.receipts[id].lease
    ensures Inv(WithWorker(s, w, Holding(id, s.receipts[id].lease.value, s.receipts[id].attempts)))
  {
    var lease := s.receipts[id].lease.value;
    var t := WithWorker(s, w, Holding(id, lease, s.receipts[id].attempts));
    assert ReceiptOk(s.receipts[id], s.now);
    assert WorkersOk(t) by {
      forall v | v in t.workers ensures PhaseOk(t, t.workers[v].phase) {
        assert v != w ==> PhaseOk(s, s.workers[v].phase);
      }
    }
  }

  lemma ClaimKeeps(s: State, w: nat, id: nat, lease: nat)
    requires Inv(s)
    ensures Inv(NextClaim(s, w, id, lease))
  {
    if NextClaim(s, w, id, lease) != s {
      TakeLease(s, id, lease);
      var taken := WithReceipt(s, id, Claimed(s.receipts[id], lease, s.now)).(leases := s.leases + {lease});
      assert ReceiptOk(s.receipts[id], s.now);
      forall v | v in s.workers && !s.workers[v].phase.Idle? ensures s.workers[v].phase.lease != lease {
        assert PhaseOk(s, s.workers[v].phase);
      }
      HoldLease(taken, w, id);
    }
  }

  lemma BeginKeeps(s: State, w: nat)
    requires Inv(s)
    ensures Inv(NextBegin(s, w))
  {
    var t := NextBegin(s, w);
    if t != s {
      assert PhaseOk(s, WorkerOf(s, w).phase);
      if t.workers[w].phase.InTx? {
        assert s.register + map[] == s.register;
      }
      WorkerMoves(s, w, t.workers[w]);
    }
  }

  lemma ReadKeeps(s: State, w: nat, organization: nat)
    requires Inv(s)
    ensures Inv(NextRead(s, w, organization))
  {
    var t := NextRead(s, w, organization);
    if t != s {
      assert w in s.workers ==> PhaseOk(s, s.workers[w].phase);
      WorkerMoves(s, w, t.workers[w]);
    }
  }

  /** A write outside the inbox commits at once. */
  lemma DirectWriteKeeps(s: State, write: Write)
    requires Inv(s)
    requires forall v <- s.workers :: s.workers[v].phase.Open() ==>
               write.organization !in s.workers[v].phase.tx.overlay
    ensures Inv(s.(register := Apply(s.register, write), log := s.log + [Commitment(None, [write])]))
  {
    var c := Commitment(None, [write]);
    LogAppend(s, c);
    ReplayOne(s.register, write);
    var published: Rows := map[write.organization := After(RowOf(s.register, write.organization), write.row)];
    assert Apply(s.register, write) == s.register + published;
    forall v | v in s.workers && s.workers[v].phase.Open()
      ensures Serial(s.register + published, s.workers[v].phase.tx)
    {
      OthersCommitSerial(s.register, s.workers[v].phase.tx, published);
    }
    var t := s.(register := Apply(s.register, write), log := s.log + [c]);
    assert WorkersOk(t) by {
      forall v | v in t.workers
        ensures PhaseOk(t, t.workers[v].phase)
      {
        assert PhaseOk(s, s.workers[v].phase);
      }
    }
  }

  lemma SyncKeeps(s: State, w: nat, at: int, value: PolarSubscription)
    requires Inv(s)
    ensures Inv(NextSync(s, w, at, value))
  {
    var t := NextSync(s, w, at, value);
    var p := WorkerOf(s, w).phase;
    if t != s && p.Idle? {
      DirectWriteKeeps(s, t.log[|s.log|].writes[0]);
    } else if t != s {
      assert PhaseOk(s, p);
      if t.workers[w].phase.InTx? {
        var tx := t.workers[w].phase.tx;
        StageSerial(s.register, p.tx, tx.staged[|p.tx.staged|]);
      }
      WorkerMoves(s, w, t.workers[w]);
    }
  }

  lemma CompleteKeeps(s: State, w: nat, ignored: bool)
    requires Inv(s)
    ensures Inv(NextComplete(s, w, ignored))
  {
    var t := NextComplete(s, w, ignored);
    if t != s {
      assert PhaseOk(s, WorkerOf(s, w).phase);
      WorkerMoves(s, w, t.workers[w]);
    }
  }

  /** Receipt, register and log take in a transaction together. */
  lemma PublishKeeps(s: State, id: nat, tx: Tx, ignored: bool, t: State)
    requires Inv(s) && Serial(s.register, tx) && !Held(s, id)
    requires ignored ==> tx.staged == []
    requires id in s.receipts && s.receipts[id].status == Processing
    requires forall v <- s.workers :: s.workers[v].phase.Open() ==>
               s.workers[v].phase.tx.overlay.Keys !! tx.overlay.Keys
    requires t == WithReceipt(s, id, Finished(s.receipts[id], ignored, tx.began))
                  .(register := s.register + tx.overlay,
                    log := if ignored then s.log else s.log + [Commitment(Some(id), tx.staged)])
    ensures Inv(t)
  {
    assert ReceiptOk(s.receipts[id], s.now);
    Release(s, id, t.receipts[id]);
    assert WorkersOk(t) by {
      forall v | v in t.workers
        ensures PhaseOk(t, t.workers[v].phase)
      {
        assert PhaseOk(WithReceipt(s, id, t.receipts[id]), s.workers[v].phase);
      }
    }
    LogAppend(s, Commitment(Some(id), tx.staged));
    forall v | v in s.workers && s.workers[v].phase.Open()
      ensures Serial(t.register, s.workers[v].phase.tx)
    {
      OthersCommitSerial(s.register, s.workers[v].phase.tx, tx.overlay);
    }
  }

  lemma CommitKeeps(s: State, w: nat, reported: bool)
    requires Inv(s)
    ensures Inv(NextCommit(s, w, reported))
  {
    var t := NextCommit(s, w, reported);
    if t != s {
      var p := WorkerOf(s, w).phase;
      assert PhaseOk(s, p);
      assert s.receipts[p.id].status == Processing by {
        assert ReceiptOk(s.receipts[p.id], s.now);
      }
      WorkerMoves(s, w, t.workers[w]);
      var left := s.(workers := t.workers);
      OnlyHolder(s, w);
      PublishKeeps(left, p.id, p.tx, p.ignored, t);
    }
  }

  /** A receipt is locked by at most one transaction. */
  lemma OnlyHolder(s: State, w: nat)
    requires Inv(s) && WorkerOf(s, w).phase.Open()
    ensures forall v <- s.workers :: v != w && s.workers[v].phase.Open() ==>
              s.workers[v].phase.id != WorkerOf(s, w).phase.id
  {
    assert PhaseOk(s, s.workers[w].phase);
    forall v | v in s.workers && v != w && s.workers[v].phase.Open()
      ensures s.workers[v].phase.id != s.workers[w].phase.id
    {
      assert PhaseOk(s, s.workers[v].phase);
    }
  }

  lemma AbortKeeps(s: State, w: nat, permanent: bool)
    requires Inv(s)
    ensures Inv(NextAbort(s, w, permanent))
  {
    var t := NextAbort(s, w, permanent);
    if t != s {
      assert PhaseOk(s, WorkerOf(s, w).phase);
      WorkerMoves(s, w, t.workers[w]);
    }
  }

  lemma FailKeeps(s: State, w: nat)
    requires Inv(s)
    ensures Inv(NextFail(s, w))
  {
    var t := NextFail(s, w);
    if t != s {
      var p := WorkerOf(s, w).phase;
      assert PhaseOk(s, p);
      WorkerMoves(s, w, t.workers[w]);
      var left := s.(workers := t.workers);
      if t.receipts != s.receipts {
        RetryBounds(p.attempts);
        assert !Held(left, p.id);
        assert ReceiptOk(s.receipts[p.id], s.now);
        ReleaseKeeps(left, p.id, t.receipts[p.id]);
      }
    }
  }

  lemma CrashKeeps(s: State, w: nat)
    requires Inv(s)
    ensures Inv(Next(s, Crash(w)))
  {
    WorkerMoves(s, w, FRESH_WORKER);
  }

  lemma TickKeeps(s: State, delta: nat)
    requires Inv(s)
    ensures Inv(Next(s, Tick(delta)))
  {
    var t := Next(s, Tick(delta));
    forall id | id in t.receipts
      ensures ReceiptOk(t.receipts[id], t.now)
    {
      assert ReceiptOk(s.receipts[id], s.now);
    }
    forall w | w in t.workers
      ensures PhaseOk(t, t.workers[w].phase)
    {
      assert PhaseOk(s, s.workers[w].phase);
    }
  }

  lemma StepKeeps(s: State, e: Event)
    requires Inv(s)
    ensures Inv(Next(s, e))
  {
    match e
    case Tick(delta) => TickKeeps(s, delta);
    case Insert(id, eventId, payloadHash) => InsertKeeps(s, id, eventId, payloadHash);
    case Reap => ReapKeeps(s);
    case Cleanup => CleanupKeeps(s);
    case Claim(w, id, lease) => ClaimKeeps(s, w, id, lease);
    case Begin(w) => BeginKeeps(s, w);
    case Read(w, organization) => ReadKeeps(s, w, organization);
    case Sync(w, at, value) => SyncKeeps(s, w, at, value);
    case Complete(w, ignored) => CompleteKeeps(s, w, ignored);
    case Commit(w, reported) => CommitKeeps(s, w, reported);
    case Abort(w, permanent) => AbortKeeps(s, w, permanent);
    case Fail(w) => FailKeeps(s, w);
    case Crash(w) => CrashKeeps(s, w);
  }

  lemma {:induction false} RunKeeps(s: State, events: seq<Event>)
    requires Inv(s)
    ensures Inv(Run(s, events))
  {
    if events != [] {
      RunKeeps(s, events[..|events| - 1]);
      StepKeeps(Run(s, events[..|events| - 1]), events[|events| - 1]);
    }
  }
}
