/** Calls and the voice agent sessions on them: guarded call transitions, session
    creation, media start, completion and reconciliation. One event is one
    statement; one that matches no row leaves the state as it is. */
module Sessions {
  import opened Sql

  // ----------------------------------------------------------------------- calls

  /** Values of both `state` columns. */
  datatype Status = Initiating | Ringing | Answered | Active | Completed | Failed | Cancelled {
    predicate Terminal() { Completed? || Failed? || Cancelled? }
  }

  datatype Call = Call(
    organization: nat,
    agent: Option<nat>,
    outbound: bool,
    status: Status,
    held: bool,
    sipCallId: Option<string>,
    answeredAt: Option<int>,
    endedAt: Option<int>)

  /** What a `MarkCall...` statement does to a row it matches. */
  datatype Mark = Ring | Answer | Activate | Complete | Fail | Cancel | Hold | Resume | Bind(sipCallId: string)

  function Marked(c: Call, m: Mark, now: int): Call {
    match m
    case Ring => if c.status.Initiating? then c.(status := Ringing) else c
    case Answer =>
      if c.status.Initiating? || c.status.Ringing?
      then c.(status := Answered, answeredAt := Some(Coalesce(c.answeredAt, now))) else c
    case Activate => if c.status.Answered? || c.status.Ringing? then c.(status := Active) else c
    case Complete =>
      if !c.status.Terminal() then c.(status := Completed, endedAt := Some(Coalesce(c.endedAt, now))) else c
    case Fail =>
      if !c.status.Terminal() then c.(status := Failed, endedAt := Some(Coalesce(c.endedAt, now))) else c
    case Cancel =>
      if c.status.Initiating? || c.status.Ringing?
      then c.(status := Cancelled, endedAt := Some(Coalesce(c.endedAt, now))) else c
    case Hold => if (c.status.Answered? || c.status.Active?) && !c.held then c.(held := true) else c
    case Resume => if (c.status.Answered? || c.status.Active?) && c.held then c.(held := false) else c
    case Bind(sip) =>
      if c.outbound && (c.sipCallId.None? || c.sipCallId.value == sip) then c.(sipCallId := Some(sip)) else c
  }

  // -------------------------------------------------------------------- sessions

  datatype Summary = Summary(turns: int, interruptions: int, firstResponse: Option<int>, averageTurn: Option<int>)

  const NO_SUMMARY := Summary(0, 0, None, None)

  datatype Session = Session(
    organization: nat,
    call: nat,
    agent: nat,
    status: Status,
    summary: Summary,
    startedAt: int,
    endedAt: Option<int>,
    mediaStartedAt: Option<int>,
    mediaEndedAt: Option<int>)

  datatype State = State(
    now: int,
    calls: map<nat, Call>,
    sessions: map<nat, Session>,
    organizations: set<nat>,
    agents: set<nat>)

  datatype Event =
    | Tick(delta: nat)
    | Switch(organizations: set<nat>, agents: set<nat>)
    | Place(id: nat, organization: nat, serving: Option<nat>, outbound: bool, status: Status, sip: Option<string>)
    | MarkCall(organization: nat, id: nat, mark: Mark)
    | Create(id: nat, organization: nat, call: nat, agent: nat)
    | MediaStart(organization: nat, id: nat)
    | Finish(organization: nat, id: nat, status: Status, summary: Summary, endedAt: int)
    | Reconcile

  function Initial(now: int): State {
    State(now, map[], map[], {}, {})
  }

  /** An active session of the call, as `GetActiveByCall` finds it. */
  predicate ActiveFor(s: State, organization: nat, call: nat, id: nat) {
    id in s.sessions && s.sessions[id].organization == organization && s.sessions[id].call == call
    && s.sessions[id].status.Active?
  }

  /** The partial unique index: a second active session of a call conflicts. */
  predicate Occupied(s: State, call: nat) {
    exists id <- s.sessions :: s.sessions[id].call == call && s.sessions[id].status.Active?
  }

  /** FROM ... JOIN ... WHERE of the insert. */
  predicate MayOpen(s: State, organization: nat, call: nat, agent: nat) {
    && call in s.calls
    && s.calls[call].organization == organization
    && s.calls[call].agent == Some(agent)
    && (s.calls[call].status.Answered? || s.calls[call].status.Active?)
    && s.calls[call].endedAt.None?
    && agent in s.agents && organization in s.organizations
  }

  function NextCreate(s: State, id: nat, organization: nat, call: nat, agent: nat): State {
    if id in s.sessions || !MayOpen(s, organization, call, agent) || Occupied(s, call) then s
    else
      s.(sessions := s.sessions[
           id := Session(organization, call, agent, Active, NO_SUMMARY, s.now, None, None, None)])
  }

  predicate Open(s: State, organization: nat, id: nat) {
    id in s.sessions && s.sessions[id].organization == organization && s.sessions[id].status.Active?
  }

  function MediaStarted(x: Session, now: int): Session {
    x.(mediaStartedAt := Some(Coalesce(x.mediaStartedAt, Max(x.startedAt, now))))
  }

  function Finished(x: Session, status: Status, summary: Summary, at: int): Session {
    x.(status := status, summary := summary, endedAt := Some(Max(x.startedAt, at)),
       mediaEndedAt :=
         if x.mediaStartedAt.None? then None
         else Some(Max(x.mediaStartedAt.value, Min(Coalesce(x.mediaEndedAt, at), Max(x.startedAt, at)))))
  }

  predicate Orphan(s: State, x: Session) {
    && x.call in s.calls && s.calls[x.call].organization == x.organization
    && s.calls[x.call].status.Terminal() && s.calls[x.call].endedAt.Some?
    && x.status.Active?
  }

  function Reconciled(x: Session, c: Call): Session
    requires c.endedAt.Some?
  {
    var end := c.endedAt.value;
    x.(status := c.status, endedAt := Some(Max(x.startedAt, end)),
       mediaEndedAt :=
         if x.mediaStartedAt.Some? then Some(Max(x.mediaStartedAt.value, Min(Coalesce(x.mediaEndedAt, end), end)))
         else None)
  }

  function NextReconcile(s: State): State {
    s.(sessions := map id | id in s.sessions ::
         if Orphan(s, s.sessions[id]) then Reconciled(s.sessions[id], s.calls[s.sessions[id].call])
         else s.sessions[id])
  }

  function Next(s: State, e: Event): State {
    match e
    case Tick(delta) => s.(now := s.now + delta)
    case Switch(organizations, agents) => s.(organizations := organizations, agents := agents)
    case Place(id, organization, agent, outbound, status, sip) =>
      if id in s.calls then s
      else s.(calls := s.calls[id := Call(organization, agent, outbound, status, false, sip, None, None)])
    case MarkCall(organization, id, mark) =>
      if id in s.calls && s.calls[id].organization == organization
      then s.(calls := s.calls[id := Marked(s.calls[id], mark, s.now)]) else s
    case Create(id, organization, call, agent) => NextCreate(s, id, organization, call, agent)
    case MediaStart(organization, id) =>
      if Open(s, organization, id) then s.(sessions := s.sessions[id := MediaStarted(s.sessions[id], s.now)]) else s
    case Finish(organization, id, status, summary, at) =>
      if Open(s, organization, id) && status.Terminal()
      then s.(sessions := s.sessions[id := Finished(s.sessions[id], status, summary, at)]) else s
    case Reconcile => NextReconcile(s)
  }

  function Run(s: State, events: seq<Event>): State {
    if events == [] then s else Next(Run(s, events[..|events| - 1]), events[|events| - 1])
  }

  lemma {:induction false} RunConcat(s: State, a: seq<Event>, b: seq<Event>)
    ensures Run(s, a + b) == Run(Run(s, a), b)
  {
    if b == [] {
      assert a + b == a;
    } else {
      var n := |b| - 1;
      assert (a + b)[..|a| + n] == a + b[..n];
      RunConcat(s, a, b[..n]);
    }
  }

  // ------------------------------------------------------------------ invariants

  /** The order of a session's instants, and which of them are set when. */
  predicate Ordered(x: Session) {
    && (x.status.Active? || x.status.Terminal())
    && (x.status.Active? <==> x.endedAt.None?)
    && (x.mediaEndedAt.Some? <==> x.mediaStartedAt.Some? && !x.status.Active?)
    && (x.endedAt.Some? ==> x.startedAt <= x.endedAt.value)
    && (x.mediaStartedAt.Some? ==> x.startedAt <= x.mediaStartedAt.value)
    && (x.mediaEndedAt.Some? ==>
          x.mediaStartedAt.value <= x.mediaEndedAt.value <= Max(x.mediaStartedAt.value, x.endedAt.value))
  }

  ghost predicate CallsOk(s: State) {
    forall id <- s.calls ::
      s.calls[id].endedAt.Some? ==> s.calls[id].status.Terminal() && s.calls[id].endedAt.value <= s.now
  }

  ghost predicate SessionsOk(s: State) {
    forall id <- s.sessions ::
      && Ordered(s.sessions[id])
      && s.sessions[id].call in s.calls
      && s.calls[s.sessions[id].call].organization == s.sessions[id].organization
  }

  ghost predicate OneActive(s: State) {
    forall i <- s.sessions, j <- s.sessions ::
      i != j && s.sessions[i].status.Active? && s.sessions[j].status.Active?
      ==> s.sessions[i].call != s.sessions[j].call
  }

  ghost predicate Inv(s: State) {
    CallsOk(s) && SessionsOk(s) && OneActive(s)
  }

  lemma StatementsKeepOrder(x: Session, now: int, status: Status, summary: Summary, at: int, c: Call)
    requires Ordered(x) && x.status.Active?
    ensures Ordered(MediaStarted(x, now))
    ensures status.Terminal() ==> Ordered(Finished(x, status, summary, at))
    ensures c.status.Terminal() && c.endedAt.Some? ==> Ordered(Reconciled(x, c))
  {
  }

  lemma StepKeepsSessions(s: State, e: Event)
    requires Inv(s)
    ensures SessionsOk(Next(s, e))
  {
    var t := Next(s, e);
    forall id | id in t.sessions ensures Ordered(t.sessions[id]) {
      if id in s.sessions && s.sessions[id].status.Active? {
        var x := s.sessions[id];
        StatementsKeepOrder(x, s.now, Completed, NO_SUMMARY, 0, s.calls[x.call]);
        if e.Finish? {
          StatementsKeepOrder(x, s.now, e.status, e.summary, e.endedAt, s.calls[x.call]);
        }
      }
    }
  }

  lemma StepKeepsOneActive(s: State, e: Event)
    requires Inv(s)
    ensures OneActive(Next(s, e))
  {
  }

  lemma StepKeeps(s: State, e: Event)
    requires Inv(s)
    ensures Inv(Next(s, e))
  {
    StepKeepsSessions(s, e);
    StepKeepsOneActive(s, e);
  }

  // ---------------------------------------------------------------- what may change

  /** A later version of a call: its first answer and its SIP identity stay, and a
      terminal call keeps its status and its end. */
  predicate CallLater(a: Call, b: Call) {
    && a.organization == b.organization && a.agent == b.agent && a.outbound == b.outbound
    && (a.answeredAt.Some? ==> b.answeredAt == a.answeredAt)
    && (a.sipCallId.Some? ==> b.sipCallId == a.sipCallId)
    && (a.status.Terminal() ==>
          b.status == a.status && b.endedAt == a.endedAt && b.answeredAt == a.answeredAt && b.held == a.held)
  }

  /** A later version of a session: a finished one never changes, and an active one
      keeps its start and its media start. */
  predicate SessionLater(a: Session, b: Session) {
    && a.organization == b.organization && a.call == b.call && a.agent == b.agent
    && a.startedAt == b.startedAt
    && (a.mediaStartedAt.Some? ==> b.mediaStartedAt == a.mediaStartedAt)
    && (!a.status.Active? ==> b == a)
  }

  ghost predicate Later(a: State, b: State) {
    && a.now <= b.now
    && (forall id <- a.calls :: id in b.calls && CallLater(a.calls[id], b.calls[id]))
    && (forall id <- a.sessions :: id in b.sessions && SessionLater(a.sessions[id], b.sessions[id]))
    && (forall id <- b.sessions ::
          id in a.sessions || (b.sessions[id].call in b.calls
                               && !(b.sessions[id].call in a.calls
                                    && a.calls[b.sessions[id].call].status.Terminal())))
  }

  lemma CallsLater(s: State, e: Event, id: nat)
    requires id in s.calls
    ensures id in Next(s, e).calls && CallLater(s.calls[id], Next(s, e).calls[id])
  {
  }

  lemma SessionsLater(s: State, e: Event, id: nat)
    requires id in s.sessions
    ensures id in Next(s, e).sessions && SessionLater(s.sessions[id], Next(s, e).sessions[id])
  {
  }

  lemma StepLater(s: State, e: Event)
    requires Inv(s)
    ensures Later(s, Next(s, e))
  {
    var t := Next(s, e);
    forall id | id in s.calls ensures id in t.calls && CallLater(s.calls[id], t.calls[id]) {
      CallsLater(s, e, id);
    }
    forall id | id in s.sessions ensures id in t.sessions && SessionLater(s.sessions[id], t.sessions[id]) {
      SessionsLater(s, e, id);
    }
    StepKeepsSessions(s, e);
  }

  /** Over any run: instants stay in order, one active session per call at a time;
      terminal calls and finished sessions are final; answer, SIP identity and media
      start are set once; and no session is created for a call that has ended. */
  lemma {:induction false} RunKeeps(s: State, events: seq<Event>)
    requires Inv(s)
    ensures Inv(Run(s, events)) && Later(s, Run(s, events))
  {
    if events != [] {
      var n := |events| - 1;
      RunKeeps(s, events[..n]);
      StepKeeps(Run(s, events[..n]), events[n]);
      StepLater(Run(s, events[..n]), events[n]);
    }
  }

  /** Once a call has ended and its sessions were reconciled, it never has an
      active session again. */
  lemma EndedCallStaysQuiet(s: State, events: seq<Event>, call: nat, id: nat)
    requires Inv(s) && call in s.calls && s.calls[call].status.Terminal() && s.calls[call].endedAt.Some?
    requires id in Run(Next(s, Reconcile), events).sessions
    requires Run(Next(s, Reconcile), events).sessions[id].call == call
    ensures !Run(Next(s, Reconcile), events).sessions[id].status.Active?
  {
    var t := Next(s, Reconcile);
    StepKeeps(s, Reconcile);
    RunKeeps(t, events);
    assert id in t.sessions;
    assert !Orphan(t, t.sessions[id]);
  }

  /** Two callers who each saw an active session of the call, the first not after
      the second, saw the same one, or the first one had finished by then and the
      other was created in between. */
  lemma AttachersAgree(s: State, events: seq<Event>, organization: nat, call: nat, i: nat, j: nat)
    requires Inv(s) && ActiveFor(s, organization, call, i)
    requires ActiveFor(Run(s, events), organization, call, j)
    ensures i == j || (!ActiveFor(Run(s, events), organization, call, i) && j !in s.sessions)
  {
    RunKeeps(s, events);
    var t := Run(s, events);
    if j in s.sessions {
      assert SessionLater(s.sessions[j], t.sessions[j]);
    }
  }
}
