/** Tool execution as a state machine: authorize, claim a key, run an external
    effect, record or replay its result, with reconciliation, crashes, session
    ends and catalogue edits in between. One event is one statement or one outside
    effect; an event that does not apply leaves the state as it is. */
module ToolProtocol {
  import opened Sql
  import opened Json
  import opened Text
  import opened ToolCatalog
  import opened Snapshot

  const WINDOW: int := 90 * SECOND

  // ------------------------------------------------------------------ executions

  /** ON CONFLICT (organization_id, session_id, tool_call_id). */
  datatype Key = Key(organization: nat, session: nat, toolCallId: string)

  datatype Response = Response(status: int, contentType: string, body: string)

  datatype Progress = Processing | Succeeded(response: Response) | Failed(message: string)

  datatype Execution = Execution(
    key: Key,
    tool: nat,
    agent: nat,
    call: nat,
    arguments: Jsonb,
    progress: Progress,
    startedAt: int)

  const UNCERTAIN: string :=
    "Tool outcome uncertain after an interrupted execution; the action may have completed. " +
    "Do not retry automatically."

  function KeyOf(r: Request): Key {
    Key(r.organization, r.session, r.toolCallId)
  }

  /** The row the claim inserts. */
  function NewExecution(r: Request, tool: nat, now: int): Execution {
    Execution(KeyOf(r), tool, r.agent, r.call, Stored(r.arguments), Processing, now)
  }

  /** The comparison of `replay`: the same execution asked for again. */
  predicate SameCall(e: Execution, r: Request, tool: nat) {
    e.tool == tool && e.agent == r.agent && e.call == r.call && SameJson(e.arguments, r.arguments)
  }

  // --------------------------------------------------------------------- workers

  type Outcome = Result<Response, string>

  /** Where one call of `Execute` stands. `tool` is the bound tool. */
  datatype Phase =
    | Idle
    | Resolved(request: Request, tool: Tool)
    | Bound(request: Request, tool: Tool)
    | Replaying(request: Request, tool: Tool)
    | Claimed(request: Request, tool: Tool, id: nat)
    | Running(request: Request, tool: Tool, id: nat)
    | Settled(request: Request, tool: Tool, id: nat, outcome: Outcome)
  {
    predicate Owns() { Claimed? || Running? || Settled? }
  }

  /** The outside effect was started, once for each entry: one call of the HTTP
      client or of call control, however often a transport delivers it. */
  datatype Effect = Effect(id: nat, request: Request, tool: Tool)

  /** A success handed to a caller. */
  datatype Returned = Returned(request: Request, tool: Tool, response: Response, replayed: bool)

  datatype State = State(
    now: int,
    rows: Rows,
    organizations: set<nat>,
    agents: set<nat>,
    sessions: map<nat, Session>,
    executions: map<nat, Execution>,
    workers: map<nat, Phase>,
    effects: seq<Effect>,
    returned: seq<Returned>)

  datatype Event =
    | Tick(delta: nat)
    | Change(edit: Edit)
    | Switch(organizations: set<nat>, agents: set<nat>)
    | Open(session: nat, stored: Session)
    | Close(session: nat)
    | Begin(worker: nat, request: Request)
    | Gate(worker: nat)
    | Claim(worker: nat, id: nat)
    | Dispatch(worker: nat)
    | Settle(worker: nat, outcome: Outcome)
    | Record(worker: nat, recorded: CommitOutcome)
    | Replay(worker: nat, found: Option<nat>)
    | Reconcile
    | Crash(worker: nat)

  function Initial(now: int): State {
    State(now, map[], {}, {}, map[], map[], map[], [], [])
  }

  function PhaseOf(s: State, w: nat): Phase {
    if w in s.workers then s.workers[w] else Idle
  }

  function With(s: State, w: nat, phase: Phase): State {
    s.(workers := s.workers[w := phase])
  }

  predicate KeyTaken(s: State, key: Key) {
    exists id <- s.executions :: s.executions[id].key == key
  }

  // ----------------------------------------------------------------------- steps

  /** Validate the request, read the session, check it, resolve the tool. */
  function NextBegin(s: State, w: nat, r: Request): State {
    if !PhaseOf(s, w).Idle? || !WellFormedRequest(r) || r.session !in s.sessions
       || !Authorizes(s.sessions[r.session], r)
    then s
    else
      var frozen := Resolve(s.sessions[r.session].snapshot, r.tool, r.name);
      if frozen.None? then s else With(s, w, Resolved(r, frozen.value))
  }

  /** `Get` of the live row: owned by the agent, agent and organization active. */
  function LiveRow(s: State, r: Request, tool: nat): Option<Row> {
    if Owned(s.rows, tool, r.organization, r.agent) && r.organization in s.organizations && r.agent in s.agents
    then Some(s.rows[tool])
    else None
  }

  function NextGate(s: State, w: nat): State {
    match PhaseOf(s, w)
    case Resolved(r, frozen) =>
      var live := LiveRow(s, r, frozen.id);
      var bound := if live.None? then None else Bind(live.value, frozen);
      With(s, w, if bound.None? then Idle else Bound(r, bound.value.tool))
    case _ => s
  }

  /** FROM ... JOIN ... WHERE of the claim. */
  predicate ClaimFinds(s: State, r: Request, tool: nat) {
    && r.session in s.sessions && Authorizes(s.sessions[r.session], r)
    && Owned(s.rows, tool, r.organization, r.agent) && s.rows[tool].enabled
    && r.organization in s.organizations
  }

  /** INSERT ... ON CONFLICT DO NOTHING RETURNING id: no row means replay. */
  function NextClaim(s: State, w: nat, id: nat): State {
    match PhaseOf(s, w)
    case Bound(r, tool) =>
      if id in s.executions then s
      else if ClaimFinds(s, r, tool.id) && !KeyTaken(s, KeyOf(r))
      then
        With(s, w, Claimed(r, tool, id))
        .(executions := s.executions[id := NewExecution(r, tool.id, s.now)])
      else With(s, w, Replaying(r, tool))
    case _ => s
  }

  /** The webhook or call control starts. */
  function NextDispatch(s: State, w: nat): State {
    match PhaseOf(s, w)
    case Claimed(r, tool, id) =>
      With(s, w, Running(r, tool, id)).(effects := s.effects + [Effect(id, r, tool)])
    case _ => s
  }

  /** The effect ended, or an error was found before it was started. */
  function NextSettle(s: State, w: nat, outcome: Outcome): State {
    match PhaseOf(s, w)
    case Claimed(r, tool, id) => if outcome.Ok? then s else With(s, w, Settled(r, tool, id, outcome))
    case Running(r, tool, id) => With(s, w, Settled(r, tool, id, outcome))
    case _ => s
  }

  function Finish(outcome: Outcome): Progress {
    match outcome
    case Ok(response) => Succeeded(response)
    case Err(message) => Failed(message)
  }

  /** Mark succeeded or failed WHERE state = 'processing'; a success is returned
      only when one row was updated and the database said so. A statement that failed
      leaves the execution processing behind. */
  function NextRecord(s: State, w: nat, recorded: CommitOutcome): State {
    match PhaseOf(s, w)
    case Settled(r, tool, id, outcome) =>
      if id in s.executions && s.executions[id].progress.Processing? && !recorded.Undone?
      then
        With(s, w, Idle)
        .(executions := s.executions[id := s.executions[id].(progress := Finish(outcome))],
          returned := if outcome.Ok? && recorded.Acknowledged?
                      then s.returned + [Returned(r, tool, outcome.value, false)] else s.returned)
      else With(s, w, Idle)
    case _ => s
  }

  /** `GetVoiceAgentToolExecution`: a row of the key, or none if there is none. */
  predicate Reads(s: State, key: Key, found: Option<nat>) {
    if found.Some? then found.value in s.executions && s.executions[found.value].key == key else !KeyTaken(s, key)
  }

  /** `replay`: read the execution of the key, compare, answer. */
  function NextReplay(s: State, w: nat, found: Option<nat>): State {
    match PhaseOf(s, w)
    case Replaying(r, tool) =>
      if !Reads(s, KeyOf(r), found) then s
      else if found.Some? && SameCall(s.executions[found.value], r, tool.id)
              && s.executions[found.value].progress.Succeeded?
      then
        With(s, w, Idle)
        .(returned := s.returned + [Returned(r, tool, s.executions[found.value].progress.response, true)])
      else With(s, w, Idle)
    case _ => s
  }

  predicate Stale(e: Execution, now: int) {
    e.progress.Processing? && e.startedAt <= now - WINDOW
  }

  function NextReconcile(s: State): State {
    s.(executions := map id | id in s.executions ::
         if Stale(s.executions[id], s.now) then s.executions[id].(progress := Failed(UNCERTAIN)) else s.executions[id])
  }

  function Next(s: State, e: Event, https: string -> bool): State {
    match e
    case Tick(delta) => s.(now := s.now + delta)
    case Change(edit) => s.(rows := NextRows(s.rows, edit, https))
    case Switch(organizations, agents) => s.(organizations := organizations, agents := agents)
    case Open(id, stored) => if id in s.sessions then s else s.(sessions := s.sessions[id := stored])
    case Close(id) =>
      if id in s.sessions then s.(sessions := s.sessions[id := s.sessions[id].(active := false)]) else s
    case Begin(w, r) => NextBegin(s, w, r)
    case Gate(w) => NextGate(s, w)
    case Claim(w, id) => NextClaim(s, w, id)
    case Dispatch(w) => NextDispatch(s, w)
    case Settle(w, outcome) => NextSettle(s, w, outcome)
    case Record(w, recorded) => NextRecord(s, w, recorded)
    case Replay(w, found) => NextReplay(s, w, found)
    case Reconcile => NextReconcile(s)
    case Crash(w) => With(s, w, Idle)
  }

  function Run(s: State, events: seq<Event>, https: string -> bool): State {
    if events == [] then s else Next(Run(s, events[..|events| - 1], https), events[|events| - 1], https)
  }

  lemma {:induction false} RunConcat(s: State, a: seq<Event>, b: seq<Event>, https: string -> bool)
    ensures Run(s, a + b, https) == Run(Run(s, a, https), b, https)
  {
    if b == [] {
      assert a + b == a;
    } else {
      var n := |b| - 1;
      assert (a + b)[..|a| + n] == a + b[..n];
      RunConcat(s, a, b[..n], https);
    }
  }
}
