/** Reconciliation and metering over whole runs: exactly when it does not matter that
    sessions are closed sooner, later or not at all. */
module MeteringRuns {
  import opened Sql
  import opened Sessions
  import opened Metering

  // ------------------------------------------------- sessions of calls that have ended

  /** The seconds of a session whose call has ended; the clock no longer matters. */
  function EndedSeconds(x: Session, end: int, low: int, high: int): int {
    if x.mediaStartedAt.None? then 0
    else Overlap(x.mediaStartedAt.value, Coalesce(x.mediaEndedAt, end), low, high)
  }

  /** Two versions of a session meter the same in every period. */
  ghost predicate Alike(x: Session, y: Session, end: int) {
    forall low, high :: EndedSeconds(x, end, low, high) == EndedSeconds(y, end, low, high)
  }

  lemma AlikeChain(x: Session, y: Session, z: Session, end: int)
    requires Alike(y, z, end)
    ensures Alike(x, y, end) <==> Alike(x, z, end)
  {
    if Alike(x, z, end) {
      forall low, high ensures EndedSeconds(x, end, low, high) == EndedSeconds(y, end, low, high) {
        assert EndedSeconds(y, end, low, high) == EndedSeconds(z, end, low, high);
      }
    }
  }

  lemma ReconciledAlike(x: Session, c: Call)
    requires Ordered(x) && x.status.Active? && c.endedAt.Some?
    ensures Alike(Reconciled(x, c), x, c.endedAt.value)
  {
    forall low, high
      ensures EndedSeconds(Reconciled(x, c), c.endedAt.value, low, high) == EndedSeconds(x, c.endedAt.value, low, high)
    {
      ReconciledMetersTheSame(x, c, low, high, 0);
    }
  }

  lemma FinishedAlike(x: Session, c: Call, status: Status, summary: Summary, at: int)
    requires Ordered(x) && x.status.Active? && c.endedAt.Some?
    ensures Alike(Finished(x, status, summary, at), x, c.endedAt.value) <==> FinishAgrees(x, c.endedAt.value, at)
  {
    var end, y := c.endedAt.value, Finished(x, status, summary, at);
    FinishFreezesMeter(x, c, status, summary, at, 0);
    forall low, high
      ensures Seconds(y, c, low, high, 0) == EndedSeconds(y, end, low, high)
      ensures Seconds(x, c, low, high, 0) == EndedSeconds(x, end, low, high)
    {
    }
    if Alike(y, x, end) {
      assert forall low, high :: EndedSeconds(y, end, low, high) == EndedSeconds(x, end, low, high);
      forall low, high ensures Seconds(y, c, low, high, 0) == Seconds(x, c, low, high, 0) {
        assert EndedSeconds(y, end, low, high) == EndedSeconds(x, end, low, high);
      }
    }
  }

  /** Audio that starts after the call has ended does not count. */
  lemma LateMediaAlike(x: Session, end: int, now: int)
    requires Ordered(x) && x.status.Active? && end <= now
    ensures Alike(MediaStarted(x, now), x, end)
  {
  }

  // ---------------------------------------------------------- one session over a run

  /** The event completes the session. */
  predicate Closes(s: State, e: Event, id: nat) {
    e.Finish? && e.id == id && Open(s, e.organization, id) && e.status.Terminal()
  }

  /** No completion closes the session with another instant than its call's end. */
  predicate ClosedInAgreement(s: State, events: seq<Event>, id: nat, end: int) {
    events == [] ||
    var n := |events| - 1;
    var t := Run(s, events[..n]);
    && ClosedInAgreement(s, events[..n], id, end)
    && (Closes(t, events[n], id) ==> FinishAgrees(t.sessions[id], end, events[n].endedAt))
  }

  /** A session of a call that has ended, in one step: it meters as before unless it
      is completed with another instant. */
  lemma OrphanStep(s: State, e: Event, id: nat)
    requires Inv(s) && id in s.sessions && Orphan(s, s.sessions[id])
    ensures id in Next(s, e).sessions
    ensures var x, y, end := s.sessions[id], Next(s, e).sessions[id], s.calls[s.sessions[id].call].endedAt.value;
            && (Closes(s, e, id) ==> !y.status.Active? && (Alike(y, x, end) <==> FinishAgrees(x, end, e.endedAt)))
            && (!Closes(s, e, id) ==> Alike(y, x, end))
  {
    var x, c := s.sessions[id], s.calls[s.sessions[id].call];
    match e
    case MediaStart(organization, session) =>
      if session == id && Open(s, organization, session) {
        LateMediaAlike(x, c.endedAt.value, s.now);
      }
    case Finish(organization, session, status, summary, at) =>
      if Closes(s, e, id) {
        FinishedAlike(x, c, status, summary, at);
      }
    case Reconcile => ReconciledAlike(x, c);
    case _ =>
  }

  /** The same over a run: a session of a call that has ended meters as it did if and
      only if no completion has closed it with another instant. */
  lemma {:induction false} OrphanRun(s: State, events: seq<Event>, id: nat)
    requires Inv(s) && id in s.sessions && Orphan(s, s.sessions[id])
    ensures id in Run(s, events).sessions
    ensures var x, y, end := s.sessions[id], Run(s, events).sessions[id], s.calls[s.sessions[id].call].endedAt.value;
            && (Alike(y, x, end) <==> ClosedInAgreement(s, events, id, end))
            && (y.status.Active? ==> ClosedInAgreement(s, events, id, end))
  {
    if events != [] {
      var n := |events| - 1;
      var t := Run(s, events[..n]);
      OrphanRun(s, events[..n], id);
      RunKeeps(s, events[..n]);
      SessionsLater(t, events[n], id);
      var x, y, z, end := s.sessions[id], t.sessions[id], Next(t, events[n]).sessions[id],
        s.calls[s.sessions[id].call].endedAt.value;
      if y.status.Active? {
        OrphanStep(t, events[n], id);
        AlikeChain(z, y, x, end);
      }
    }
  }

  // ------------------------------------------------------------- two runs side by side

  /** The states of two runs of which one has reconciled before, closing the sessions
      that are set apart. */
  ghost predicate Beside(t: State, u: State, apart: set<nat>) {
    && t.now == u.now && t.calls == u.calls && t.organizations == u.organizations && t.agents == u.agents
    && t.sessions.Keys == u.sessions.Keys
    && (forall id <- u.sessions :: id in apart || t.sessions[id] == u.sessions[id])
    && forall id <- apart ::
         && id in u.sessions && u.sessions[id].call in u.calls
         && t.sessions[id].call == u.sessions[id].call && !t.sessions[id].status.Active?
         && u.calls[u.sessions[id].call].status.Terminal()
  }

  ghost function Orphans(s: State): set<nat> {
    set id | id in s.sessions && Orphan(s, s.sessions[id])
  }

  lemma ReconcileIsBeside(s: State)
    requires Inv(s)
    ensures Beside(NextReconcile(s), s, Orphans(s))
  {
  }

  lemma OccupiedAlike(t: State, u: State, apart: set<nat>, call: nat)
    requires Beside(t, u, apart) && call in u.calls && !u.calls[call].status.Terminal()
    ensures Occupied(t, call) <==> Occupied(u, call)
  {
    forall id | id in u.sessions && (u.sessions[id].call == call || t.sessions[id].call == call)
      ensures t.sessions[id] == u.sessions[id]
    {
    }
  }

  lemma CreateAlike(t: State, u: State, apart: set<nat>, id: nat, organization: nat, call: nat, agent: nat)
    requires Beside(t, u, apart)
    ensures var v, w := NextCreate(t, id, organization, call, agent), NextCreate(u, id, organization, call, agent);
            && v.sessions.Keys == w.sessions.Keys
            && forall x <- w.sessions :: x in u.sessions || v.sessions[x] == w.sessions[x]
  {
    if MayOpen(u, organization, call, agent) {
      OccupiedAlike(t, u, apart, call);
    }
  }

  lemma OthersAddNothing(s: State, e: Event)
    requires !e.Create?
    ensures Next(s, e).sessions.Keys == s.sessions.Keys
  {
  }

  lemma NewSessionsAlike(t: State, u: State, apart: set<nat>, e: Event)
    requires Beside(t, u, apart)
    ensures Next(t, e).sessions.Keys == Next(u, e).sessions.Keys
    ensures forall id <- Next(u, e).sessions :: id in u.sessions || Next(t, e).sessions[id] == Next(u, e).sessions[id]
  {
    if e.Create? {
      CreateAlike(t, u, apart, e.id, e.organization, e.call, e.agent);
    } else {
      OthersAddNothing(t, e);
      OthersAddNothing(u, e);
    }
  }

  lemma EqualStep(t: State, u: State, apart: set<nat>, e: Event, id: nat)
    requires Beside(t, u, apart) && id in u.sessions && t.sessions[id] == u.sessions[id]
    ensures id in Next(t, e).sessions && id in Next(u, e).sessions
    ensures Next(t, e).sessions[id] == Next(u, e).sessions[id]
  {
  }

  lemma RestSteps(t: State, u: State, apart: set<nat>, e: Event)
    requires Beside(t, u, apart)
    ensures var v, w := Next(t, e), Next(u, e);
            v.now == w.now && v.calls == w.calls && v.organizations == w.organizations && v.agents == w.agents
  {
  }

  lemma StaysBeside(t: State, u: State, apart: set<nat>, e: Event)
    requires Beside(t, u, apart)
    ensures Beside(Next(t, e), Next(u, e), apart)
  {
    RestSteps(t, u, apart, e);
    NewSessionsAlike(t, u, apart, e);
    var v, w := Next(t, e), Next(u, e);
    forall id | id in w.sessions && id !in apart ensures v.sessions[id] == w.sessions[id] {
      if id in u.sessions {
        EqualStep(t, u, apart, e, id);
      }
    }
    forall id | id in apart
      ensures id in w.sessions && w.sessions[id].call in w.calls
      ensures v.sessions[id].call == w.sessions[id].call && !v.sessions[id].status.Active?
      ensures w.calls[w.sessions[id].call].status.Terminal()
    {
      SessionsLater(t, e, id);
      SessionsLater(u, e, id);
      CallsLater(u, e, u.sessions[id].call);
    }
  }

  lemma {:induction false} RunsBeside(t: State, u: State, apart: set<nat>, events: seq<Event>)
    requires Beside(t, u, apart)
    ensures Beside(Run(t, events), Run(u, events), apart)
  {
    if events != [] {
      var n := |events| - 1;
      RunsBeside(t, u, apart, events[..n]);
      StaysBeside(Run(t, events[..n]), Run(u, events[..n]), apart, events[n]);
    }
  }

  // -------------------------------------------------------------------------- results

  /** The session meters the same in both states, in every period. */
  ghost predicate SameMeter(t: State, u: State, id: nat)
    requires id in t.sessions && t.sessions[id].call in t.calls
    requires id in u.sessions && u.sessions[id].call in u.calls
  {
    forall low, high ::
      Seconds(t.sessions[id], t.calls[t.sessions[id].call], low, high, t.now)
      == Seconds(u.sessions[id], u.calls[u.sessions[id].call], low, high, u.now)
  }

  /** Both states have the same sessions on the same calls, metering the same. */
  ghost predicate MetersAlike(t: State, u: State) {
    && t.calls == u.calls && t.sessions.Keys == u.sessions.Keys
    && forall id <- u.sessions ::
         && t.sessions[id].call in t.calls && u.sessions[id].call in u.calls
         && t.sessions[id].call == u.sessions[id].call && t.sessions[id].organization == u.sessions[id].organization
         && SameMeter(t, u, id)
  }

  /** No session active on an ended call is completed later with another instant. */
  ghost predicate Agreeing(s: State, events: seq<Event>) {
    forall id <- s.sessions :: Orphan(s, s.sessions[id]) ==>
      ClosedInAgreement(s, events, id, s.calls[s.sessions[id].call].endedAt.value)
  }

  /** For one session, whatever happens after: closing it now changes its meter if and
      only if a completion would have closed it with another instant. */
  lemma SessionReconcileAnyTime(s: State, after: seq<Event>, id: nat)
    requires Inv(s) && id in s.sessions && Orphan(s, s.sessions[id])
    ensures var t, u := Run(NextReconcile(s), after), Run(s, after);
            && id in t.sessions && t.sessions[id].call in t.calls && id in u.sessions && u.sessions[id].call in u.calls
            && t.sessions[id].call == u.sessions[id].call && t.sessions[id].organization == u.sessions[id].organization
            && (SameMeter(t, u, id)
                <==> ClosedInAgreement(s, after, id, s.calls[s.sessions[id].call].endedAt.value))
  {
    var r, x, c := NextReconcile(s), s.sessions[id], s.calls[s.sessions[id].call];
    StepKeeps(s, Reconcile);
    RunKeeps(r, after);
    RunKeeps(s, after);
    OrphanRun(s, after, id);
    ReconciledAlike(x, c);
    var t, u, end := Run(r, after), Run(s, after), c.endedAt.value;
    var a, b := t.sessions[id], u.sessions[id];
    assert a == r.sessions[id] == Reconciled(x, c);
    assert t.calls[a.call].endedAt == u.calls[b.call].endedAt == Some(end);
    AlikeChain(b, x, a, end);
    SameMeterIsAlike(t, u, id, end);
  }

  lemma SameMeterIsAlike(t: State, u: State, id: nat, end: int)
    requires id in t.sessions && t.sessions[id].call in t.calls
    requires id in u.sessions && u.sessions[id].call in u.calls
    requires t.calls[t.sessions[id].call].endedAt == u.calls[u.sessions[id].call].endedAt == Some(end)
    ensures SameMeter(t, u, id) <==> Alike(u.sessions[id], t.sessions[id], end)
  {
    var a, b := t.sessions[id], u.sessions[id];
    forall low, high
      ensures Seconds(a, t.calls[a.call], low, high, t.now) == EndedSeconds(a, end, low, high)
      ensures Seconds(b, u.calls[b.call], low, high, u.now) == EndedSeconds(b, end, low, high)
    {
    }
    if SameMeter(t, u, id) {
      forall low, high ensures EndedSeconds(b, end, low, high) == EndedSeconds(a, end, low, high) {
        assert Seconds(a, t.calls[a.call], low, high, t.now) == Seconds(b, u.calls[b.call], low, high, u.now);
      }
    }
    if Alike(b, a, end) {
      forall low, high
        ensures Seconds(a, t.calls[a.call], low, high, t.now) == Seconds(b, u.calls[b.call], low, high, u.now)
      {
        assert EndedSeconds(b, end, low, high) == EndedSeconds(a, end, low, high);
      }
    }
  }

  /** Where the sessions set apart meter the same, all do. */
  lemma BesideMetersAlike(t: State, u: State, apart: set<nat>)
    requires Inv(t) && Inv(u) && Beside(t, u, apart)
    requires forall id <- apart :: t.sessions[id].organization == u.sessions[id].organization && SameMeter(t, u, id)
    ensures MetersAlike(t, u)
  {
    forall id | id in u.sessions
      ensures t.sessions[id].call in t.calls && u.sessions[id].call in u.calls
      ensures t.sessions[id].call == u.sessions[id].call && t.sessions[id].organization == u.sessions[id].organization
      ensures SameMeter(t, u, id)
    {
      if id !in apart {
        assert t.sessions[id] == u.sessions[id];
      }
    }
  }

  lemma AllReconcileAnyTime(s: State, after: seq<Event>)
    requires Inv(s)
    ensures MetersAlike(Run(NextReconcile(s), after), Run(s, after)) <==> Agreeing(s, after)
  {
    var r := NextReconcile(s);
    ReconcileIsBeside(s);
    RunsBeside(r, s, Orphans(s), after);
    StepKeeps(s, Reconcile);
    RunKeeps(r, after);
    RunKeeps(s, after);
    var t, u := Run(r, after), Run(s, after);
    if Agreeing(s, after) {
      forall id | id in Orphans(s)
        ensures t.sessions[id].organization == u.sessions[id].organization && SameMeter(t, u, id)
      {
        SessionReconcileAnyTime(s, after, id);
      }
      BesideMetersAlike(t, u, Orphans(s));
    }
    if MetersAlike(t, u) {
      forall id | id in Orphans(s)
        ensures ClosedInAgreement(s, after, id, s.calls[s.sessions[id].call].endedAt.value)
      {
        SessionReconcileAnyTime(s, after, id);
      }
    }
  }

  lemma SameSeconds(t: State, u: State, organization: nat, id: nat, low: int, high: int)
    requires MetersAlike(t, u)
    ensures Joined(t, organization, id) <==> Joined(u, organization, id)
    ensures Joined(u, organization, id) ==>
              SecondsOf(t, organization, id, low, high) == SecondsOf(u, organization, id, low, high)
  {
    if id in u.sessions {
      assert SameMeter(t, u, id);
    }
  }

  lemma AlikeUse(t: State, u: State, organization: nat, low: int, high: int)
    requires MetersAlike(t, u)
    ensures UsedSeconds(t, organization, low, high) == UsedSeconds(u, organization, low, high)
  {
    FilterChangesNothing(t, organization, low, high);
    FilterChangesNothing(u, organization, low, high);
    var a, b := PlainSeconds(t, organization, low, high), PlainSeconds(u, organization, low, high);
    forall id ensures id in a <==> id in b {
      SameSeconds(t, u, organization, id, low, high);
    }
    forall id | id in b ensures a[id] == b[id] {
      SameSeconds(t, u, organization, id, low, high);
    }
    assert a == b;
  }

  /** Exactly when reconciliation may run at any time: inserting it anywhere into any
      run leaves the meter of every session as it is in the final state, for every
      period, if and only if no session that it closes would later have been completed
      with another instant. Then all used-seconds sums stay as they are, too; without
      it they can do so only where the differences of several sessions cancel out. */
  lemma ReconcileAnyTime(s: State, before: seq<Event>, after: seq<Event>)
    requires Inv(s)
    ensures var t, u := Run(s, before + [Reconcile] + after), Run(s, before + after);
            && (MetersAlike(t, u) <==> Agreeing(Run(s, before), after))
            && (Agreeing(Run(s, before), after) ==>
                  forall organization, low, high ::
                    UsedSeconds(t, organization, low, high) == UsedSeconds(u, organization, low, high))
  {
    RunKeeps(s, before);
    RunConcat(s, before, after);
    RunConcat(s, before + [Reconcile], after);
    assert (before + [Reconcile])[..|before|] == before;
    AllReconcileAnyTime(Run(s, before), after);
    var t, u := Run(s, before + [Reconcile] + after), Run(s, before + after);
    if MetersAlike(t, u) {
      forall organization, low, high
        ensures UsedSeconds(t, organization, low, high) == UsedSeconds(u, organization, low, high)
      {
        AlikeUse(t, u, organization, low, high);
      }
    }
  }

  // --------------------------------------------------------- and where it does matter

  const RACE: seq<Event> :=
    [Switch({1}, {1}), Place(1, 1, Some(1), true, Answered, None), Create(1, 1, 1, 1), MediaStart(1, 1),
     Tick(10_000_000), MarkCall(1, 1, Complete), Tick(50_000_000)]

  /** A call that ended at 10 s, its session still active at 60 s. */
  function Late(): State {
    State(60_000_000,
          map[1 := Call(1, Some(1), true, Completed, false, None, None, Some(10_000_000))],
          map[1 := Session(1, 1, 1, Active, NO_SUMMARY, 0, None, Some(0), None)], {1}, {1})
  }

  lemma LateIsReached()
    ensures Run(Initial(0), RACE) == Late()
  {
    var call := Call(1, Some(1), true, Answered, false, None, None, None);
    var x := Session(1, 1, 1, Active, NO_SUMMARY, 0, None, None, None);
    var s1 := State(0, map[], map[], {1}, {1});
    var s2 := s1.(calls := map[1 := call]);
    var s3 := s2.(sessions := map[1 := x]);
    var s4 := s3.(sessions := map[1 := x.(mediaStartedAt := Some(0))]);
    var s5 := s4.(now := 10_000_000);
    var s6 := s5.(calls := map[1 := call.(status := Completed, endedAt := Some(10_000_000))]);
    assert Next(Initial(0), RACE[0]) == s1 && Next(s1, RACE[1]) == s2 && Next(s2, RACE[2]) == s3;
    assert Next(s3, RACE[3]) == s4 && Next(s4, RACE[4]) == s5 && Next(s5, RACE[5]) == s6;
    Prefixes();
    assert Run(Initial(0), RACE[..1]) == s1;
    assert Run(Initial(0), RACE[..2]) == s2;
    assert Run(Initial(0), RACE[..3]) == s3;
    assert Run(Initial(0), RACE[..4]) == s4;
    assert Run(Initial(0), RACE[..5]) == s5;
    assert Run(Initial(0), RACE[..6]) == s6;
  }

  lemma Prefixes()
    ensures RACE[..1][..0] == [] && RACE[..2][..1] == RACE[..1] && RACE[..3][..2] == RACE[..2]
    ensures RACE[..4][..3] == RACE[..3] && RACE[..5][..4] == RACE[..4] && RACE[..6][..5] == RACE[..5]
  {
  }

  lemma OneSession(s: State, x: Session, c: Call)
    requires s.sessions == map[1 := x] && s.calls == map[1 := c]
    requires x.organization == 1 && x.call == 1 && c.organization == 1
    ensures UsedSeconds(s, 1, 0, 100_000_000) == Seconds(x, c, 0, 100_000_000, s.now)
  {
    FilterChangesNothing(s, 1, 0, 100_000_000);
    var m := PlainSeconds(s, 1, 0, 100_000_000);
    assert m.Keys == {1};
    SumTakes(m, 1);
    assert m - {1} == map[];
  }

  /** The instants of completion and of the call's end differ, and so do the sums: ten
      seconds if reconciliation comes first, five or sixty if completion does. */
  lemma CompletionRacesReconciliation()
    ensures Run(Initial(0), RACE) == Late()
    ensures var early := Finish(1, 1, Completed, NO_SUMMARY, 5_000_000);
            var late := Finish(1, 1, Completed, NO_SUMMARY, 60_000_000);
            && UsedSeconds(Next(Next(Late(), Reconcile), early), 1, 0, 100_000_000) == 10
            && UsedSeconds(Next(Next(Late(), Reconcile), late), 1, 0, 100_000_000) == 10
            && UsedSeconds(Next(Late(), early), 1, 0, 100_000_000) == 5
            && UsedSeconds(Next(Late(), late), 1, 0, 100_000_000) == 60
  {
    LateIsReached();
    var early := Finish(1, 1, Completed, NO_SUMMARY, 5_000_000);
    var late := Finish(1, 1, Completed, NO_SUMMARY, 60_000_000);
    var s := Late();
    var x, c := s.sessions[1], s.calls[1];
    var done := Reconciled(x, c);
    OneSession(Next(Next(s, Reconcile), early), done, c);
    OneSession(Next(Next(s, Reconcile), late), done, c);
    OneSession(Next(s, early), Finished(x, Completed, NO_SUMMARY, 5_000_000), c);
    OneSession(Next(s, late), Finished(x, Completed, NO_SUMMARY, 60_000_000), c);
  }
}
