/** The billing webhook inbox: receipts processed under leases by concurrent
    workers, each committing its effect on the register in the transaction that
    completes the receipt. One event is one SQL statement, transaction boundary,
    crash or passage of time; an event that would wait for a lock, or whose
    statement matches no row, leaves the state as it is. A run is any sequence of
    events. */
module Inbox {
  import opened Sql
  import opened Subscriptions
  import opened Polar
  import opened Register

  const LEASE: int := 60 * SECOND
  const MAX_ATTEMPTS: int := 8
  const KEEP: int := 30 * DAY

  // -------------------------------------------------------------------- receipts

  datatype ReceiptStatus = Pending | Processing | Processed | Ignored | DeadLetter

  datatype Receipt = Receipt(
    eventId: string,
    payloadHash: string,
    status: ReceiptStatus,
    attempts: int,
    availableAt: int,
    lockedAt: Option<int>,
    lease: Option<nat>,
    receivedAt: int,
    processedAt: Option<int>)

  /** `InsertBillingWebhookEvent` of a new event id. */
  function NewReceipt(eventId: string, payloadHash: string, now: int): Receipt {
    Receipt(eventId, payloadHash, Pending, 0, now, None, None, now, None)
  }

  predicate LeaseExpired(r: Receipt, now: int) {
    Lt(r.lockedAt, Some(now - LEASE)).Holds()
  }

  /** WHERE of the claim's inner SELECT. */
  predicate Claimable(r: Receipt, now: int) {
    && r.attempts < MAX_ATTEMPTS
    && r.availableAt <= now
    && (r.status == Pending || (r.status == Processing && LeaseExpired(r, now)))
  }

  function Claimed(r: Receipt, lease: nat, now: int): Receipt {
    r.(status := Processing, attempts := r.attempts + 1, lockedAt := Some(now), lease := Some(lease))
  }

  /** WHERE of get-claimed, complete and fail. */
  predicate HoldsLease(r: Receipt, lease: nat) {
    Eq(r.lease, Some(lease)).Holds() && r.status == Processing
  }

  function Finished(r: Receipt, ignored: bool, began: int): Receipt {
    r.(status := if ignored then Ignored else Processed,
       processedAt := Some(began), lockedAt := None, lease := None)
  }

  /** 1, 2, 4, ... seconds. */
  function Pow2(n: int): int
    decreases n
  {
    if n <= 0 then 1 else 2 * Pow2(n - 1)
  }

  function RetrySeconds(attempt: int): int {
    Min(300, Pow2(attempt - 1))
  }

  /** The status `fail` chooses. */
  function FailStatus(permanent: bool, attempts: int): ReceiptStatus {
    if permanent || attempts >= MAX_ATTEMPTS then DeadLetter else Pending
  }

  function Failed(r: Receipt, status: ReceiptStatus, attempts: int, now: int): Receipt {
    r.(status := status, lockedAt := None, lease := None,
       availableAt := now + RetrySeconds(attempts) * SECOND)
  }

  predicate Exhausted(r: Receipt, now: int) {
    r.status == Processing && LeaseExpired(r, now) && r.attempts >= MAX_ATTEMPTS
  }

  function Reaped(r: Receipt): Receipt {
    r.(status := DeadLetter, lockedAt := None, lease := None)
  }

  predicate Old(r: Receipt, now: int) {
    r.status in {Processed, Ignored} && Lt(r.processedAt, Some(now - KEEP)).Holds()
  }

  // --------------------------------------------------------------------- workers

  /** Where a worker's `RunOnce` stands. */
  datatype Phase =
    | Idle
    | Holding(id: nat, lease: nat, attempts: int)
    | InTx(id: nat, lease: nat, attempts: int, tx: Tx)
    | Completing(id: nat, lease: nat, attempts: int, tx: Tx, ignored: bool)
    | Failing(id: nat, lease: nat, attempts: int, permanent: bool)
  {
    predicate Open() { InTx? || Completing? }
  }

  /** A worker and the subscription row it last read, if it has not yet used it. */
  datatype Worker = Worker(phase: Phase, read: Option<(nat, Option<Subscription>)>)

  const FRESH_WORKER := Worker(Idle, None)

  /** One committed transaction with an effect: the receipt it completed, or none
      for a write outside the inbox, and the upserts it executed. */
  datatype Commitment = Commitment(receipt: Option<nat>, writes: seq<Write>)

  datatype State = State(
    catalog: Catalog,
    now: int,
    receipts: map<nat, Receipt>,
    issued: set<nat>,
    leases: set<nat>,
    register: Rows,
    workers: map<nat, Worker>,
    log: seq<Commitment>)

  datatype Event =
    | Tick(delta: nat)
    | Insert(id: nat, eventId: string, payloadHash: string)
    | Reap
    | Cleanup
    | Claim(worker: nat, id: nat, lease: nat)
    | Begin(worker: nat)
    | Read(worker: nat, organization: nat)
    | Sync(worker: nat, at: int, value: PolarSubscription)
    | Complete(worker: nat, ignored: bool)
    | Commit(worker: nat, reported: bool)
    | Abort(worker: nat, permanent: bool)
    | Fail(worker: nat)
    | Crash(worker: nat)

  function Initial(catalog: Catalog, now: int): State {
    State(catalog, now, map[], {}, {}, map[], map[], [])
  }

  function WorkerOf(s: State, w: nat): Worker {
    if w in s.workers then s.workers[w] else FRESH_WORKER
  }

  /** Some open transaction holds the receipt's row lock. */
  predicate Held(s: State, id: nat) {
    exists w <- s.workers :: s.workers[w].phase.Open() && s.workers[w].phase.id == id
  }

  /** Another transaction holds the organization's row lock. */
  predicate OrganizationHeld(s: State, organization: nat, self: nat) {
    exists w <- s.workers ::
      w != self && s.workers[w].phase.Open() && organization in s.workers[w].phase.tx.overlay
  }

  /** ORDER BY received_at, id. */
  predicate Before(a: Receipt, i: nat, b: Receipt, j: nat) {
    a.receivedAt < b.receivedAt || (a.receivedAt == b.receivedAt && i <= j)
  }

  predicate Candidate(s: State, id: nat) {
    id in s.receipts && Claimable(s.receipts[id], s.now) && !Held(s, id)
  }

  /** The one row the claim may take: SKIP LOCKED, then first in order. */
  predicate First(s: State, id: nat) {
    Candidate(s, id) &&
    forall j <- s.receipts :: Candidate(s, j) ==> Before(s.receipts[id], id, s.receipts[j], j)
  }

  function WithWorker(s: State, w: nat, phase: Phase): State {
    s.(workers := s.workers[w := WorkerOf(s, w).(phase := phase)])
  }

  function WithReceipt(s: State, id: nat, r: Receipt): State {
    s.(receipts := s.receipts[id := r])
  }

  // ----------------------------------------------------------------------- steps

  function NextInsert(s: State, id: nat, eventId: string, payloadHash: string): State {
    if id in s.issued || exists j <- s.receipts :: s.receipts[j].eventId == eventId then s
    else WithReceipt(s, id, NewReceipt(eventId, payloadHash, s.now)).(issued := s.issued + {id})
  }

  function NextReap(s: State): State {
    s.(receipts := map id | id in s.receipts ::
         if Exhausted(s.receipts[id], s.now) && !Held(s, id) then Reaped(s.receipts[id]) else s.receipts[id])
  }

  function NextCleanup(s: State): State {
    s.(receipts := map id | id in s.receipts && !Old(s.receipts[id], s.now) :: s.receipts[id])
  }

  function NextClaim(s: State, w: nat, id: nat, lease: nat): State {
    if !WorkerOf(s, w).phase.Idle? || lease in s.leases || !First(s, id) then s
    else
      var r := Claimed(s.receipts[id], lease, s.now);
      WithWorker(WithReceipt(s, id, r), w, Holding(id, lease, r.attempts)).(leases := s.leases + {lease})
  }

  /** `GetClaimedBillingWebhookEvent ... FOR UPDATE` at the start of the transaction. */
  function NextBegin(s: State, w: nat): State {
    match WorkerOf(s, w).phase
    case Holding(id, lease, attempts) =>
      if Held(s, id) then s
      else if id in s.receipts && HoldsLease(s.receipts[id], lease)
      then WithWorker(s, w, InTx(id, lease, attempts, Tx(s.now, [], map[])))
      else WithWorker(s, w, Idle)
    case _ => s
  }

  /** The register as a worker sees it: committed rows under its own overlay. */
  function View(s: State, w: nat): Rows {
    var p := WorkerOf(s, w).phase;
    if p.Open() then s.register + p.tx.overlay else s.register
  }

  function NextRead(s: State, w: nat, organization: nat): State {
    var p := WorkerOf(s, w).phase;
    if p.Idle? || p.InTx?
    then s.(workers := s.workers[w := Worker(p, Some((organization, RowOf(View(s, w), organization))))])
    else s
  }

  /** The row available to the grace rule: the one read for this organization. */
  function ReadRow(s: State, w: nat, organization: Option<nat>): Option<Option<Subscription>> {
    var read := WorkerOf(s, w).read;
    if read.Some? && Some(read.value.0) == organization then Some(read.value.1) else None
  }

  /** The second half of `syncPolarSubscription`: translate, validate, upsert. A
      past-due value needs the row of its organization read before; the others never
      look at it. */
  function NextSync(s: State, w: nat, at: int, value: PolarSubscription): State {
    var p := WorkerOf(s, w).phase;
    var read := ReadRow(s, w, value.organization);
    if !(p.Idle? || p.InTx?) || (value.status.PPastDue? && value.organization.Some? && read.None?) then s
    else
      match BuildRequest(s.catalog, if read.Some? then read.value else None, at, value)
      case Err(_) => if p.Idle? then s else WithWorker(s, w, Failing(p.id, p.lease, p.attempts, true))
      case Ok(req) =>
        var write := Write(value.organization.value, Excluded(req));
        if OrganizationHeld(s, write.organization, w) then s
        else if p.Idle?
        then s.(register := Apply(s.register, write), log := s.log + [Commitment(None, [write])])
        else WithWorker(s, w, InTx(p.id, p.lease, p.attempts, Stage(s.register, p.tx, write)))
  }

  /** `CompleteBillingWebhookEvent` inside the transaction; `Handle` reports an
      event as ignored only without having written. */
  function NextComplete(s: State, w: nat, ignored: bool): State {
    match WorkerOf(s, w).phase
    case InTx(id, lease, attempts, tx) =>
      if ignored && tx.staged != [] then s
      else if id in s.receipts && HoldsLease(s.receipts[id], lease)
      then WithWorker(s, w, Completing(id, lease, attempts, tx, ignored))
      else WithWorker(s, w, Failing(id, lease, attempts, false))
    case _ => s
  }

  /** Publication. A commit may succeed and still be reported as an error. */
  function NextCommit(s: State, w: nat, reported: bool): State {
    match WorkerOf(s, w).phase
    case Completing(id, lease, attempts, tx, ignored) =>
      if id !in s.receipts then s
      else
        WithWorker(WithReceipt(s, id, Finished(s.receipts[id], ignored, tx.began)), w,
                   if reported then Idle else Failing(id, lease, attempts, false))
        .(register := s.register + tx.overlay,
          log := if ignored then s.log else s.log + [Commitment(Some(id), tx.staged)])
    case _ => s
  }

  function NextAbort(s: State, w: nat, permanent: bool): State {
    var p := WorkerOf(s, w).phase;
    if p.Holding? || p.Open() then WithWorker(s, w, Failing(p.id, p.lease, p.attempts, permanent)) else s
  }

  function NextFail(s: State, w: nat): State {
    match WorkerOf(s, w).phase
    case Failing(id, lease, attempts, permanent) =>
      if Held(s, id) then s
      else if id in s.receipts && HoldsLease(s.receipts[id], lease)
      then
        WithWorker(WithReceipt(s, id,
                               Failed(s.receipts[id], FailStatus(permanent, attempts), attempts, s.now)), w, Idle)
      else WithWorker(s, w, Idle)
    case _ => s
  }

  function Next(s: State, e: Event): State {
    match e
    case Tick(delta) => s.(now := s.now + delta)
    case Insert(id, eventId, payloadHash) => NextInsert(s, id, eventId, payloadHash)
    case Reap => NextReap(s)
    case Cleanup => NextCleanup(s)
    case Claim(w, id, lease) => NextClaim(s, w, id, lease)
    case Begin(w) => NextBegin(s, w)
    case Read(w, organization) => NextRead(s, w, organization)
    case Sync(w, at, value) => NextSync(s, w, at, value)
    case Complete(w, ignored) => NextComplete(s, w, ignored)
    case Commit(w, reported) => NextCommit(s, w, reported)
    case Abort(w, permanent) => NextAbort(s, w, permanent)
    case Fail(w) => NextFail(s, w)
    case Crash(w) => s.(workers := s.workers[w := FRESH_WORKER])
  }

  function Run(s: State, events: seq<Event>): State {
    if events == [] then s else Next(Run(s, events[..|events| - 1]), events[|events| - 1])
  }

  lemma {:induction false} RunConcat(s: State, a: seq<Event>, b: seq<Event>)
    ensures Run(s, a + b) == Run(Run(s, a), b)
  {
    if b == [] {
      assert a + b == a;
    } else {
      var n := |b| - 1;
      assert (a + b)[..|a| + n] == a + b[..n];
      RunConcat(s, a, b[..n]);
    }
  }
}
