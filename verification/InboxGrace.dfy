/** Payment grace over every run of the inbox: the row read and the row written
    may be any number of other transactions apart. */
module InboxGrace {
  import opened Sql
  import opened Subscriptions
  import opened Polar
  import opened Register
  import opened Inbox
  import opened InboxSafety
  import opened InboxTheorems
  import opened Translation
  import Access

  /** The provider never dates the start or the end of a grace period with the
      zero time. */
  predicate Dated(events: seq<Event>) {
    forall e <- events :: e.Sync? ==> DatedGrace(e.at, e.value)
  }

  predicate Proper(row: Subscription) {
    StoredGrace(row) && row.subscriptionId.Some?
  }

  predicate ProperWrites(writes: seq<Write>) {
    forall w <- writes :: Proper(w.row)
  }

  predicate ProperWorker(k: Worker) {
    && (k.read.Some? && k.read.value.1.Some? ==> Proper(k.read.value.1.value))
    && (k.phase.Open() ==>
          && ProperWrites(k.phase.tx.staged)
          && forall o <- k.phase.tx.overlay :: Proper(k.phase.tx.overlay[o]))
  }

  predicate GraceInv(s: State) {
    && (forall o <- s.register :: Proper(s.register[o]))
    && ProperWrites(Writes(s.log))
    && forall w <- s.workers :: ProperWorker(s.workers[w])
  }

  lemma AfterProper(row: Option<Subscription>, ex: Subscription)
    requires Proper(ex) && (row.Some? ==> Proper(row.value))
    ensures Proper(After(row, ex))
  {
  }

  lemma StageProper(committed: Rows, tx: Tx, w: Write)
    requires ProperWrites(tx.staged) && Proper(w.row)
    requires forall o <- committed :: Proper(committed[o])
    requires forall o <- tx.overlay :: Proper(tx.overlay[o])
    ensures var t := Stage(committed, tx, w);
            ProperWrites(t.staged) && forall o <- t.overlay :: Proper(t.overlay[o])
  {
    AfterProper(RowOf(committed + tx.overlay, w.organization), w.row);
  }

  lemma DirectKeepsGrace(s: State, write: Write)
    requires GraceInv(s) && Proper(write.row)
    ensures GraceInv(s.(register := Apply(s.register, write), log := s.log + [Commitment(None, [write])]))
  {
    AfterProper(RowOf(s.register, write.organization), write.row);
    WritesAppend(s.log, Commitment(None, [write]));
  }

  lemma WorkerKeepsGrace(s: State, w: nat, k: Worker)
    requires GraceInv(s) && ProperWorker(k)
    ensures GraceInv(s.(workers := s.workers[w := k]))
  {
  }

  lemma SyncKeepsGrace(s: State, w: nat, at: int, value: PolarSubscription)
    requires GraceInv(s) && DatedGrace(at, value)
    ensures GraceInv(NextSync(s, w, at, value))
  {
    var t := NextSync(s, w, at, value);
    var k := WorkerOf(s, w);
    assert ProperWorker(k);
    var read := ReadRow(s, w, value.organization);
    var seen := if read.Some? then read.value else None;
    var built := BuildRequest(s.catalog, seen, at, value);
    if built.Ok? {
      ProposedRowStoresGrace(s.catalog, seen, at, value);
      var write := Write(value.organization.value, Excluded(built.value));
      DirectKeepsGrace(s, write);
      if k.phase.InTx? {
        StageProper(s.register, k.phase.tx, write);
        var p := k.phase;
        WorkerKeepsGrace(s, w, k.(phase := InTx(p.id, p.lease, p.attempts, Stage(s.register, p.tx, write))));
      }
    } else if t != s {
      WorkerKeepsGrace(s, w, t.workers[w]);
    }
  }

  lemma CommitKeepsGrace(s: State, w: nat, reported: bool)
    requires GraceInv(s)
    ensures GraceInv(NextCommit(s, w, reported))
  {
    var k := WorkerOf(s, w);
    assert ProperWorker(k);
    if k.phase.Completing? {
      WritesAppend(s.log, Commitment(Some(k.phase.id), k.phase.tx.staged));
    }
  }

  lemma ReadKeepsGrace(s: State, w: nat, organization: nat)
    requires GraceInv(s)
    ensures GraceInv(NextRead(s, w, organization))
  {
    assert ProperWorker(WorkerOf(s, w));
  }

  lemma OtherRowsSame(s: State, e: Event)
    requires !e.Sync? && !e.Commit?
    ensures Next(s, e).register == s.register && Next(s, e).log == s.log
  {
  }

  lemma OtherWorkersSame(s: State, e: Event, w: nat)
    requires Actor(e) != Some(w)
    ensures WorkerOf(Next(s, e), w) == WorkerOf(s, w)
  {
  }

  lemma OtherPhaseProper(s: State, e: Event, w: nat)
    requires !e.Sync? && !e.Read? && !e.Commit? && ProperWorker(WorkerOf(s, w))
    ensures ProperWorker(WorkerOf(Next(s, e), w))
  {
    if Actor(e) != Some(w) {
      OtherWorkersSame(s, e, w);
    }
  }

  /** No other event touches the register, the log, or what a worker has read or
      staged, except by dropping it. */
  lemma OthersKeepGrace(s: State, e: Event)
    requires GraceInv(s) && !e.Sync? && !e.Read? && !e.Commit?
    ensures GraceInv(Next(s, e))
  {
    OtherRowsSame(s, e);
    forall w | w in Next(s, e).workers ensures ProperWorker(Next(s, e).workers[w]) {
      assert ProperWorker(WorkerOf(s, w));
      OtherPhaseProper(s, e, w);
    }
  }

  lemma GraceStep(s: State, e: Event)
    requires GraceInv(s) && (e.Sync? ==> DatedGrace(e.at, e.value))
    ensures GraceInv(Next(s, e))
  {
    match e
    case Sync(w, at, value) => SyncKeepsGrace(s, w, at, value);
    case Read(w, organization) => ReadKeepsGrace(s, w, organization);
    case Commit(w, reported) => CommitKeepsGrace(s, w, reported);
    case _ => OthersKeepGrace(s, e);
  }

  lemma {:induction false} GraceRun(s: State, events: seq<Event>)
    requires GraceInv(s) && Dated(events)
    ensures GraceInv(Run(s, events))
  {
    if events != [] {
      var n := |events| - 1;
      assert events[n] in events && forall e <- events[..n] :: e in events;
      GraceRun(s, events[..n]);
      GraceStep(Run(s, events[..n]), events[n]);
    }
  }

  /** In every reachable state a past-due row ends its grace three days after it
      began and no other row carries a grace pair. */
  lemma GraceInEveryRun(catalog: Catalog, now: int, events: seq<Event>, organization: nat)
    requires Dated(events)
    requires organization in Run(Initial(catalog, now), events).register
    ensures GraceOk(Run(Initial(catalog, now), events).register[organization])
  {
    GraceRun(Initial(catalog, now), events);
  }

  // ----------------------------------------------------------- pairs are in order

  predicate OrderedRows(rows: Rows) {
    forall o <- rows :: PairOrdered(Some(rows[o]))
  }

  predicate OrderedWorker(k: Worker) {
    && (k.read.Some? ==> PairOrdered(k.read.value.1))
    && (k.phase.Open() ==> OrderedRows(k.phase.tx.overlay))
  }

  predicate OrderInv(s: State) {
    OrderedRows(s.register) && forall w <- s.workers :: OrderedWorker(s.workers[w])
  }

  lemma BuiltInOrder(catalog: Catalog, read: Option<Subscription>, at: int, value: PolarSubscription,
                     row: Option<Subscription>)
    requires BuildRequest(catalog, read, at, value).Ok? && PairOrdered(row)
    ensures PairOrdered(Some(After(row, Excluded(BuildRequest(catalog, read, at, value).value))))
  {
  }

  lemma SyncKeepsOrder(s: State, w: nat, at: int, value: PolarSubscription)
    requires OrderInv(s)
    ensures OrderInv(NextSync(s, w, at, value))
  {
    var read := ReadRow(s, w, value.organization);
    var seen := if read.Some? then read.value else None;
    var built := BuildRequest(s.catalog, seen, at, value);
    var k := WorkerOf(s, w);
    assert OrderedWorker(k);
    if built.Ok? {
      var o := value.organization.value;
      BuiltInOrder(s.catalog, seen, at, value, RowOf(s.register, o));
      if k.phase.InTx? {
        BuiltInOrder(s.catalog, seen, at, value, RowOf(s.register + k.phase.tx.overlay, o));
      }
    }
  }

  lemma OtherPhaseOrdered(s: State, e: Event, w: nat)
    requires !e.Sync? && !e.Read? && !e.Commit? && OrderedWorker(WorkerOf(s, w))
    ensures OrderedWorker(WorkerOf(Next(s, e), w))
  {
    if Actor(e) != Some(w) {
      OtherWorkersSame(s, e, w);
    }
  }

  lemma OrderStep(s: State, e: Event)
    requires OrderInv(s)
    ensures OrderInv(Next(s, e))
  {
    match e
    case Sync(w, at, value) => SyncKeepsOrder(s, w, at, value);
    case Read(w, organization) => assert OrderedWorker(WorkerOf(s, w));
    case Commit(w, reported) => assert OrderedWorker(WorkerOf(s, w));
    case _ =>
      OtherRowsSame(s, e);
      forall w | w in Next(s, e).workers ensures OrderedWorker(Next(s, e).workers[w]) {
        assert OrderedWorker(WorkerOf(s, w));
        OtherPhaseOrdered(s, e, w);
      }
  }

  /** In every run all rows, committed, staged or read, end no grace before it starts:
      validation never refuses a value on that account. */
  lemma {:induction false} PairsStayOrdered(s: State, events: seq<Event>)
    requires OrderInv(s)
    ensures OrderInv(Run(s, events))
  {
    if events != [] {
      PairsStayOrdered(s, events[..|events| - 1]);
      OrderStep(Run(s, events[..|events| - 1]), events[|events| - 1]);
    }
  }

  // ---------------------------------------------------------------- three days

  lemma {:induction false} ProperFor(writes: seq<Write>, organization: nat)
    requires ProperWrites(writes)
    ensures AllStoreGrace(For(writes, organization))
  {
    if writes != [] {
      var n := |writes| - 1;
      assert writes[n] in writes && forall w <- writes[..n] :: w in writes;
      ProperFor(writes[..n], organization);
    }
  }

  /** While every write committed to an organization leaves it past due, no run
      grants access at or beyond three days after the start stored when the
      episode was first seen. */
  lemma EpisodeEndsInThreeDays(
    catalog: Catalog, now: int, before: seq<Event>, after: seq<Event>, organization: nat,
    between: seq<Commitment>, instant: int)
    requires Dated(before) && Dated(after)
    requires organization in Run(Initial(catalog, now), before).register
    requires Run(Initial(catalog, now), before + after).log == Run(Initial(catalog, now), before).log + between
    requires var row := Run(Initial(catalog, now), before).register[organization];
             var own := For(Writes(between), organization);
             forall k | 0 <= k <= |own| ::
               Replay(Some(row), own[..k]).Some? && Replay(Some(row), own[..k]).value.status.PastDue?
    ensures var start := Run(Initial(catalog, now), before).register[organization].pastDueAt;
            && start.Some?
            && (Access.PaidAccessActive(
                  RowOf(Run(Initial(catalog, now), before + after).register, organization), instant) ==>
                  start.value <= instant < start.value + 3 * DAY)
  {
    var s := Run(Initial(catalog, now), before);
    var more := RegisterIsReplayOfLog(catalog, now, before, after, organization);
    assert more == between by {
      assert (s.log + more)[|s.log|..] == more && (s.log + between)[|s.log|..] == between;
    }
    GraceRun(Initial(catalog, now), before);
    RunConcat(Initial(catalog, now), before, after);
    GraceRun(s, after);
    WritesConcat(s.log, between);
    var all := Writes(s.log) + Writes(between);
    assert ProperWrites(Writes(between)) by {
      forall w | w in Writes(between) ensures Proper(w.row) {
        assert w in all;
      }
    }
    ProperFor(Writes(between), organization);
    assert For(Writes(between), organization)[..0] == [];
    assert Replay(Some(s.register[organization]), []) == Some(s.register[organization]);
    GraceCannotBeStretched(s.register[organization], For(Writes(between), organization), instant);
  }
}
