/** The tool tables as mutable state, the statements as methods, and
    `Executor.Execute` on top of them with every other actor interleaved. */
module ToolStore {
  import opened Sql
  import opened Json
  import opened Text
  import opened ToolCatalog
  import opened Snapshot
  import opened ToolProtocol
  import opened ToolSafety
  import opened ToolOutcomes

  datatype ExecuteError = BadRequest | Forbidden | Conflict | NotFound | Unavailable(message: string) | Internal

  /** What the outside does in one execution: the fate of the claim, an error found
      before the effect was started, the effect's outcome, and the fate of the
      recording. */
  datatype World = World(claim: CommitOutcome, early: Option<string>, outcome: Outcome, recorded: CommitOutcome)

  /** Nobody else does anything. */
  ghost predicate Quiet(env: nat -> seq<Event>) {
    forall k :: env(k) == []
  }

  /** How the execution ends: with the error found early, or as the effect does. */
  function Ending(world: World): Outcome {
    if world.early.Some? then Err(world.early.value) else world.outcome
  }

  /** The end as it is stored. */
  predicate StoredEnd(progress: Progress, outcome: Outcome) {
    match outcome
    case Ok(response) => progress == Succeeded(response)
    case Err(message) => progress == Failed(message)
  }

  class Store {
    const https: string -> bool
    const epoch: int
    var now: int
    var rows: Rows
    var organizations: set<nat>
    var agents: set<nat>
    var sessions: map<nat, Session>
    var executions: map<nat, Execution>
    var workers: map<nat, Phase>
    var effects: seq<Effect>
    var returned: seq<Returned>
    ghost var history: seq<Event>

    function Tables(): State
      reads this
    {
      State(now, rows, organizations, agents, sessions, executions, workers, effects, returned)
    }

    function At(w: nat): Phase
      reads this
    {
      PhaseOf(Tables(), w)
    }

    /** The tables are in the state to which the history leads. */
    ghost predicate Valid()
      reads this
    {
      Tables() == Run(Initial(epoch), history, https)
    }

    /** One more event has happened, and nothing else. */
    twostate predicate Did(e: Event)
      reads this
    {
      history == old(history) + [e] && Tables() == Next(old(Tables()), e, https)
    }

    /** What authorizes calls is as before. */
    twostate predicate SameGrants()
      reads this
    {
      && sessions == old(sessions) && rows == old(rows)
      && organizations == old(organizations) && agents == old(agents) && now == old(now)
    }

    constructor (epoch: int, https: string -> bool)
      ensures Valid() && Tables() == Initial(epoch) && history == []
    {
      this.epoch, this.https, now := epoch, https, epoch;
      rows, organizations, agents, sessions, executions := map[], {}, {}, map[], map[];
      workers, effects, returned := map[], [], [];
      history := [];
    }

    lemma Reachable()
      requires Valid()
      ensures Inv(Tables())
    {
      RunKeeps(Initial(epoch), history, https);
    }

    twostate lemma Extends(e: Event)
      requires old(Valid()) && Did(e)
      ensures Valid()
    {
      assert history[..|history| - 1] == old(history);
    }

    /** The session part of `CreateVoiceAgentSession`: the agent's enabled tools,
        in the order of `ids`, are frozen into the new session. */
    method OpenSession(id: nat, organization: nat, agent: nat, call: nat, ids: seq<nat>)
      requires Valid() && id !in sessions
      requires Lists(rows, organization, agent, ids)
      modifies this
      ensures Valid()
      ensures Did(Open(id, Session(organization, agent, call, true, Some(Freeze(old(rows), ids)))))
    {
      var tools := [];
      for i := 0 to |ids|
        invariant tools == Freeze(rows, ids)[..i]
      {
        assert ids[i] in ids;
        tools := tools + [rows[ids[i]].tool];
      }
      assert tools == Freeze(rows, ids);
      var stored := Session(organization, agent, call, true, Some(tools));
      sessions := sessions[id := stored];
      history := history + [Open(id, stored)];
      Extends(Open(id, stored));
    }

    /** Read the session, check it, resolve the tool from the snapshot. */
    method ReadSession(w: nat, r: Request)
      requires Valid() && At(w).Idle?
      modifies this
      ensures Valid() && Did(Begin(w, r)) && SameGrants() && executions == old(executions)
      ensures At(w).Idle? || (At(w).Resolved? && At(w).request == r)
      ensures At(w).Resolved? <==>
                && WellFormedRequest(r) && r.session in sessions && sessions[r.session].active
                && sessions[r.session].organization == r.organization
                && sessions[r.session].agent == r.agent && sessions[r.session].call == r.call
                && Resolve(sessions[r.session].snapshot, r.tool, r.name).Some?
      ensures At(w).Resolved? ==> Some(At(w).tool) == Resolve(sessions[r.session].snapshot, r.tool, r.name)
    {
      if WellFormedRequest(r) && r.session in sessions && Authorizes(sessions[r.session], r) {
        var frozen := ResolveSessionTool(sessions[r.session].snapshot, r.tool, r.name);
        if frozen.Some? {
          workers := workers[w := Resolved(r, frozen.value)];
        }
      }
      history := history + [Begin(w, r)];
      Extends(Begin(w, r));
    }

    /** Read the live row as a gate and bind the frozen settings. */
    method ReadTool(w: nat)
      requires Valid() && At(w).Resolved?
      modifies this
      ensures Valid() && Did(Gate(w)) && SameGrants() && executions == old(executions)
      ensures At(w).Idle? || (At(w).Bound? && At(w).request == old(At(w).request))
      ensures At(w).Bound? <==>
                var r, id := old(At(w)).request, old(At(w)).tool.id;
                && id in rows && rows[id].organization == r.organization && rows[id].agent == r.agent
                && rows[id].enabled && rows[id].tool.id == id
                && r.organization in organizations && r.agent in agents
      ensures At(w).Bound? ==> At(w).tool == old(At(w)).tool
    {
      var p := At(w);
      var live := LiveRow(Tables(), p.request, p.tool.id);
      var bound: Option<Row> := None;
      if live.Some? {
        bound := Bind(live.value, p.tool);
      }
      workers := workers[w := if bound.Some? then Bound(p.request, bound.value.tool) else Idle];
      history := history + [Gate(w)];
      Extends(Gate(w));
    }

    /** `ClaimVoiceAgentToolExecution`: insert under the key, or nothing. */
    method ClaimExecution(w: nat, id: nat) returns (claimed: bool)
      requires Valid() && At(w).Bound? && id !in executions
      modifies this
      ensures Valid() && Did(Claim(w, id)) && SameGrants() && effects == old(effects)
      ensures claimed <==>
                var r, t := old(At(w)).request, old(At(w)).tool.id;
                && r.session in sessions && sessions[r.session].active
                && sessions[r.session].organization == r.organization
                && sessions[r.session].agent == r.agent && sessions[r.session].call == r.call
                && t in rows && rows[t].organization == r.organization && rows[t].agent == r.agent && rows[t].enabled
                && r.organization in organizations
                && forall other <- old(executions) :: old(executions)[other].key != KeyOf(r)
      ensures claimed ==>
                executions == old(executions)[id := Execution(KeyOf(old(At(w)).request), old(At(w)).tool.id,
                                                              old(At(w)).request.agent, old(At(w)).request.call,
                                                              Stored(old(At(w)).request.arguments), Processing, now)]
      ensures claimed ==> At(w) == Claimed(old(At(w).request), old(At(w).tool), id)
      ensures !claimed ==> At(w) == Replaying(old(At(w).request), old(At(w).tool)) && executions == old(executions)
    {
      var p := At(w);
      claimed := ClaimFinds(Tables(), p.request, p.tool.id)
        && forall other <- executions :: executions[other].key != KeyOf(p.request);
      if claimed {
        executions := executions[id := Execution(KeyOf(p.request), p.tool.id, p.request.agent, p.request.call,
                                                 Stored(p.request.arguments), Processing, now)];
        workers := workers[w := Claimed(p.request, p.tool, id)];
      } else {
        workers := workers[w := Replaying(p.request, p.tool)];
      }
      history := history + [Claim(w, id)];
      Extends(Claim(w, id));
    }

    /** The outside effect begins. */
    method StartEffect(w: nat)
      requires Valid() && At(w).Claimed?
      modifies this
      ensures Valid() && Did(Dispatch(w)) && SameGrants() && executions == old(executions)
      ensures effects == old(effects) + [Effect(old(At(w)).id, old(At(w)).request, old(At(w)).tool)]
      ensures At(w) == Running(old(At(w).request), old(At(w).tool), old(At(w).id))
    {
      var p := At(w);
      effects := effects + [Effect(p.id, p.request, p.tool)];
      workers := workers[w := Running(p.request, p.tool, p.id)];
      history := history + [Dispatch(w)];
      Extends(Dispatch(w));
    }

    method EndEffect(w: nat, outcome: Outcome)
      requires Valid() && (At(w).Running? || (At(w).Claimed? && outcome.Err?))
      modifies this
      ensures Valid() && Did(Settle(w, outcome)) && SameGrants()
      ensures executions == old(executions) && effects == old(effects)
      ensures At(w) == Settled(old(At(w).request), old(At(w).tool), old(At(w).id), outcome)
    {
      var p := At(w);
      workers := workers[w := Settled(p.request, p.tool, p.id, outcome)];
      history := history + [Settle(w, outcome)];
      Extends(Settle(w, outcome));
    }

    /** `MarkVoiceAgentToolExecutionSucceeded` or `...Failed`, and the answer. */
    method UpdateProcessing(w: nat, recorded: CommitOutcome) returns (answer: Result<Returned, ExecuteError>)
      requires At(w).Settled? && At(w).id in executions
      modifies this
      ensures Tables() == NextRecord(old(Tables()), w, recorded) && history == old(history) && SameGrants()
      ensures RecordedAs(old(At(w)), recorded, answer)
    {
      var p := At(w);
      workers := workers[w := Idle];
      if !executions[p.id].progress.Processing? || recorded.Undone? {
        return Err(Internal);
      }
      match p.outcome {
        case Err(message) =>
          executions := executions[p.id := executions[p.id].(progress := Failed(message))];
          answer := Err(if recorded.Acknowledged? then Unavailable(message) else Internal);
        case Ok(response) =>
          executions := executions[p.id := executions[p.id].(progress := Succeeded(response))];
          if recorded.Acknowledged? {
            answer := Ok(Returned(p.request, p.tool, response, false));
            returned := returned + [answer.value];
          } else {
            answer := Err(Internal);
          }
      }
    }

    /** Where the execution is still processing and the statement is carried out, it ends
        with the outcome; a success is answered if moreover the statement is confirmed. */
    twostate predicate RecordedAs(p: Phase, recorded: CommitOutcome, new answer: Result<Returned, ExecuteError>)
      requires p.Settled? && p.id in old(executions)
      reads this
    {
      && (if old(executions)[p.id].progress.Processing? && !recorded.Undone? then
            && p.id in executions && StoredEnd(executions[p.id].progress, p.outcome)
            && executions == old(executions)[p.id := executions[p.id]]
            && executions[p.id] == old(executions)[p.id].(progress := executions[p.id].progress)
          else executions == old(executions))
      && (answer.Ok? <==> old(executions)[p.id].progress.Processing? && recorded.Acknowledged? && p.outcome.Ok?)
      && (answer.Ok? ==>
            && answer.value == Returned(p.request, p.tool, p.outcome.value, false)
            && returned == old(returned) + [answer.value])
      && (answer.Err? ==> returned == old(returned))
      && (old(executions)[p.id].progress.Processing? && recorded.Acknowledged? && p.outcome.Err? ==>
            answer == Err(Unavailable(p.outcome.error)))
    }

    method RecordResult(w: nat, recorded: CommitOutcome) returns (answer: Result<Returned, ExecuteError>)
      requires Valid() && At(w).Settled?
      modifies this
      ensures Valid() && Did(Record(w, recorded)) && SameGrants() && effects == old(effects)
      ensures At(w).Idle?
      ensures old(At(w)).id in old(executions) && RecordedAs(old(At(w)), recorded, answer)
      ensures answer.Ok? ==> answer.value in returned
    {
      Reachable();
      assert PhaseOk(Tables(), At(w));
      answer := UpdateProcessing(w, recorded);
      history := history + [Record(w, recorded)];
      Extends(Record(w, recorded));
    }

    /** The answer to a call whose key is in use. */
    ghost predicate ReplayedAs(p: Phase, found: Option<nat>, answer: Result<Returned, ExecuteError>)
      requires p.Replaying?
      reads this
    {
      if found.None? then
        answer == Err(ExecuteError.NotFound) && forall id <- executions :: executions[id].key != KeyOf(p.request)
      else
        found.value in executions && executions[found.value].key == KeyOf(p.request) &&
        var x := executions[found.value];
        if x.tool != p.tool.id || x.agent != p.request.agent || x.call != p.request.call
           || !SameJson(x.arguments, p.request.arguments)
        then answer == Err(ExecuteError.Conflict)
        else match x.progress
          case Processing => answer == Err(ExecuteError.Conflict)
          case Failed(message) =>
            answer == Err(Unavailable(if Trim(message) == "" then "voice agent tool execution failed" else message))
          case Succeeded(response) => answer == Ok(Returned(p.request, p.tool, response, true))
    }

    /** Read the execution of the key, compare, answer. */
    method LookUp(w: nat) returns (answer: Result<Returned, ExecuteError>, ghost found: Option<nat>)
      requires At(w).Replaying?
      ensures ReplayedAs(At(w), found, answer)
    {
      var p := At(w);
      found := None;
      answer := Err(ExecuteError.NotFound);
      if id :| id in executions && executions[id].key == KeyOf(p.request) {
        found := Some(id);
        var e := executions[id];
        answer := Err(ExecuteError.Conflict);
        if e.tool == p.tool.id && e.agent == p.request.agent && e.call == p.request.call
           && SameJson(e.arguments, p.request.arguments) {
          match e.progress {
            case Processing =>
            case Failed(message) =>
              answer := Err(Unavailable(if Blank(message) then "voice agent tool execution failed" else message));
            case Succeeded(response) =>
              answer := Ok(Returned(p.request, p.tool, response, true));
          }
        }
      }
    }

    method TakeAnswer(w: nat) returns (answer: Result<Returned, ExecuteError>, ghost found: Option<nat>)
      requires At(w).Replaying?
      modifies this`workers, this`returned
      ensures Tables() == NextReplay(old(Tables()), w, found)
      ensures At(w).Idle? && ReplayedAs(old(At(w)), found, answer)
      ensures returned == old(returned) + if answer.Ok? then [answer.value] else []
    {
      answer, found := LookUp(w);
      if answer.Ok? {
        returned := returned + [answer.value];
      }
      workers := workers[w := Idle];
    }

    /** `replay`. */
    method ReplayResult(w: nat) returns (answer: Result<Returned, ExecuteError>, ghost found: Option<nat>)
      requires Valid() && At(w).Replaying?
      modifies this
      ensures Valid() && Did(Replay(w, found)) && SameGrants()
      ensures At(w).Idle? && executions == old(executions) && effects == old(effects)
      ensures ReplayedAs(old(At(w)), found, answer)
      ensures returned == old(returned) + if answer.Ok? then [answer.value] else []
      ensures answer.Ok? ==> answer.value in returned
    {
      answer, found := TakeAnswer(w);
      if answer.Ok? {
        assert returned[|returned| - 1] == answer.value;
      }
      history := history + [Replay(w, found)];
      Extends(Replay(w, found));
    }

    /** `ReconcileUncertainVoiceAgentToolExecutions` with a cutoff 90 s ago. */
    method ReconcileUncertain()
      requires Valid()
      modifies this
      ensures Valid() && Did(Reconcile)
    {
      var cutoff := now - WINDOW;
      executions := map id | id in executions ::
        if executions[id].progress.Processing? && executions[id].startedAt <= cutoff
        then executions[id].(progress := Failed(UNCERTAIN)) else executions[id];
      history := history + [Reconcile];
      Extends(Reconcile);
    }

    /** Everything the other actors do before this one's next statement. */
    method Others(events: seq<Event>, self: nat)
      requires Valid()
      requires forall e <- events :: ActorOf(e) != Some(self)
      modifies this
      ensures Valid() && history == old(history) + events
      ensures Tables() == Run(old(Tables()), events, https)
      ensures events == [] ==> Tables() == old(Tables())
      ensures At(self) == old(At(self)) && Later(old(Tables()), Tables())
    {
      Reachable();
      RunKeeps(Tables(), events, https);
      OthersLeave(Tables(), events, https, self);
      RunConcat(Initial(epoch), history, events, https);
      Become(Run(Tables(), events, https));
      history := history + events;
    }

    method Become(next: State)
      modifies this
      ensures Tables() == next && history == old(history)
    {
      now, rows, organizations, agents := next.now, next.rows, next.organizations, next.agents;
      sessions, executions, workers := next.sessions, next.executions, next.workers;
      effects, returned := next.effects, next.returned;
    }

    /** The worker stops, its row staying behind. */
    method Stop(w: nat)
      requires Valid()
      modifies this
      ensures Valid() && Did(Crash(w)) && At(w).Idle?
    {
      workers := workers[w := Idle];
      history := history + [Crash(w)];
      Extends(Crash(w));
    }

    /** `Execute` up to the bound tool, for a well-formed request. Left alone it succeeds
        exactly when the request's tool may be run. */
    method AuthorizeCall(w: nat, r: Request, env: nat -> seq<Event>) returns (error: Option<ExecuteError>)
      requires Valid() && At(w).Idle? && WellFormedRequest(r)
      requires forall k, e :: e in env(k) ==> ActorOf(e) != Some(w)
      modifies this
      ensures Valid() && old(history) <= history
      ensures error.Some? ==> At(w).Idle?
      ensures error.None? ==> At(w).Bound? && At(w).request == r
      ensures Quiet(env) ==> SameGrants() && executions == old(executions) && effects == old(effects)
      ensures Quiet(env) ==> (error.None? <==> Entitled(old(Tables()), r))
      ensures Quiet(env) && error.None? ==> MayRun(old(Tables()), r, At(w).tool)
    {
      Others(env(0), w);
      ReadSession(w, r);
      if At(w).Idle? {
        return Some(Forbidden);
      }
      Others(env(1), w);
      ReadTool(w);
      error := if At(w).Idle? then Some(Forbidden) else None;
    }

    /** A worker's tool is one that can be run. */
    lemma BoundIsRunnable(w: nat)
      requires Valid() && !At(w).Idle?
      ensures Runnable(At(w).tool)
    {
      Reachable();
      var p := At(w);
      assert PhaseOk(Tables(), p);
      var tools := sessions[p.request.session].snapshot.value;
      ResolvesOnlyRunnable(tools, p.request.tool, p.request.name);
    }

    /** The effect itself, unless an error comes first. The tool's type is never an
        unsupported one. */
    method PerformEffect(w: nat, world: World, env: nat -> seq<Event>)
      requires Valid() && At(w).Claimed?
      requires forall k, e :: e in env(k) ==> ActorOf(e) != Some(w)
      modifies this
      ensures Valid() && old(history) <= history
      ensures At(w) == Settled(old(At(w)).request, old(At(w)).tool, old(At(w)).id, Ending(world))
      ensures StillOrGivenUp(old(At(w)).id)
      ensures world.early.None? ==> Effect(old(At(w)).id, old(At(w)).request, old(At(w)).tool) in effects
      ensures Quiet(env) ==>
                && SameGrants() && executions == old(executions)
                && effects == old(effects) + if world.early.Some? then []
                                             else [Effect(old(At(w)).id, old(At(w)).request, old(At(w)).tool)]
    {
      OthersAround(w, env(0));
      BoundIsRunnable(w);
      assert At(w).tool.kind.Webhook? || At(w).tool.kind.Builtin?;
      if world.early.Some? {
        EndEffect(w, Err(world.early.value));
      } else {
        StartAndWait(w, env(1));
        EndEffect(w, world.outcome);
      }
    }

    /** The call of the client, during which others act. */
    method StartAndWait(w: nat, others: seq<Event>)
      requires Valid() && At(w).Claimed? && forall e <- others :: ActorOf(e) != Some(w)
      modifies this
      ensures Valid() && old(history) <= history
      ensures At(w) == Running(old(At(w)).request, old(At(w)).tool, old(At(w)).id)
      ensures StillOrGivenUp(old(At(w)).id)
      ensures Effect(old(At(w)).id, old(At(w)).request, old(At(w)).tool) in effects
      ensures others == [] ==>
                && SameGrants() && executions == old(executions)
                && effects == old(effects) + [Effect(old(At(w)).id, old(At(w)).request, old(At(w)).tool)]
    {
      StartEffect(w);
      ghost var started := effects;
      OthersAround(w, others);
      assert started <= effects && started[|started| - 1] in effects;
    }

    /** Everything the other actors do while this one owns an execution. */
    method OthersAround(w: nat, events: seq<Event>)
      requires Valid() && At(w).Owns() && forall e <- events :: ActorOf(e) != Some(w)
      modifies this
      ensures Valid() && history == old(history) + events && At(w) == old(At(w))
      ensures StillOrGivenUp(At(w).id) && old(effects) <= effects
      ensures events == [] ==> Tables() == old(Tables())
    {
      Reachable();
      OthersOnlyGiveUp(Tables(), events, https, w);
      Others(events, w);
    }

    /** The execution is as it was, or reconciliation has given it up. */
    twostate predicate StillOrGivenUp(id: nat)
      reads this
    {
      && id in old(executions) && id in executions
      && (executions[id].progress == old(executions)[id].progress
          || (old(executions)[id].progress.Processing? && executions[id].progress == Failed(UNCERTAIN)))
    }

    /** `Execute` from the claim on: run the effect, record it, answer. What is stored
        and answered is how the effect ended, unless reconciliation has come first. */
    method RunEffect(w: nat, world: World, env: nat -> seq<Event>) returns (answer: Result<Returned, ExecuteError>)
      requires Valid() && At(w).Claimed? && At(w).id in executions && executions[At(w).id].progress.Processing?
      requires forall k, e :: e in env(k) ==> ActorOf(e) != Some(w)
      modifies this
      ensures Valid() && old(history) <= history
      ensures At(w).Idle?
      ensures Finished(old(At(w)), world, answer)
      ensures answer.Ok? ==> answer.value in returned
      ensures Quiet(env) ==>
                old(executions)[old(At(w)).id].key == KeyOf(old(At(w)).request)
                && old(executions)[old(At(w)).id].tool == old(At(w)).tool.id
                ==> AnswersNew(old(At(w)).request, old(At(w)).tool, old(At(w)).id, world, answer)
    {
      PerformEffect(w, world, env);
      OthersAround(w, env(2));
      answer := RecordResult(w, world.recorded);
    }

    /** How a claimed execution may turn out. */
    ghost predicate Finished(p: Phase, world: World, answer: Result<Returned, ExecuteError>)
      requires p.Claimed?
      reads this
    {
      && p.id in executions
      && (answer.Ok? ==>
            && FromEffect(world, answer.value)
            && answer.value == Returned(p.request, p.tool, answer.value.response, false))
      && (if world.recorded.Undone?
          then executions[p.id].progress.Processing? || executions[p.id].progress == Failed(UNCERTAIN)
          else StoredEnd(executions[p.id].progress, Ending(world)) || executions[p.id].progress == Failed(UNCERTAIN))
    }

    lemma AnswerIsBacked(answer: Returned)
      requires Valid() && answer in returned
      ensures exists id :: Backed(Tables(), answer, id)
    {
      Reachable();
      var k :| 0 <= k < |returned| && returned[k] == answer;
    }

    /** `Execute` from the bound tool on: claim, then run the effect or replay. */
    method ClaimAndRun(w: nat, id: nat, world: World, env: nat -> seq<Event>)
      returns (answer: Result<Returned, ExecuteError>)
      requires Valid() && At(w).Bound? && id !in executions
      requires forall k, e :: e in env(k) ==> ActorOf(e) != Some(w)
      modifies this
      ensures Valid() && old(history) <= history
      ensures At(w).Idle?
      ensures answer.Ok? ==> answer.value in returned && answer.value.request == old(At(w).request)
      ensures answer.Ok? ==> world.claim.Acknowledged? && (answer.value.replayed || FromEffect(world, answer.value))
      ensures Quiet(env) && MayRun(old(Tables()), old(At(w)).request, old(At(w)).tool) ==>
                Answers(old(At(w)).request, old(At(w)).tool, id, world, answer)
    {
      if world.claim.Undone? {
        Stop(w);
        return Err(Internal);
      }
      var claimed := TryClaim(w, id);
      if world.claim.Unacknowledged? {
        Stop(w);
        answer := Err(Internal);
      } else if claimed {
        answer := RunEffect(w, world, env);
      } else {
        answer := ReplayAfter(w, env(0));
      }
    }

    /** The claim, seen from a tool that may be run: it succeeds exactly for a new key. */
    method TryClaim(w: nat, id: nat) returns (claimed: bool)
      requires Valid() && At(w).Bound? && id !in executions
      modifies this
      ensures Valid() && old(history) <= history
      ensures effects == old(effects)
      ensures var p := old(At(w));
              && (MayRun(old(Tables()), p.request, p.tool) ==>
                    (claimed <==> forall x <- old(executions) :: old(executions)[x].key != KeyOf(p.request)))
              && (claimed ==>
                    && At(w) == Claimed(p.request, p.tool, id)
                    && id in executions && executions[id].progress.Processing?
                    && executions[id].key == KeyOf(p.request) && executions[id].tool == p.tool.id)
              && (!claimed ==> At(w) == Replaying(p.request, p.tool) && executions == old(executions))
    {
      claimed := ClaimExecution(w, id);
    }

    /** The key is in use: answer from its execution. */
    method ReplayAfter(w: nat, others: seq<Event>) returns (answer: Result<Returned, ExecuteError>)
      requires Valid() && At(w).Replaying? && forall e <- others :: ActorOf(e) != Some(w)
      modifies this
      ensures Valid() && old(history) <= history && At(w).Idle?
      ensures answer.Ok? ==>
                answer.value in returned && answer.value.request == old(At(w).request) && answer.value.replayed
      ensures others == [] ==> AnswersUsed(old(At(w)).request, old(At(w)).tool, answer)
    {
      Others(others, w);
      Reachable();
      ghost var found;
      answer, found := ReplayResult(w);
    }

    /** The success is what the effect answered, stored and confirmed. */
    predicate FromEffect(world: World, answer: Returned) {
      world.recorded.Acknowledged? && world.early.None? && world.outcome == Ok(answer.response)
    }

    /** A call for a key in use comes to the stored response of the same call, or to an
        error. */
    twostate predicate AnswersUsed(r: Request, tool: Tool, new answer: Result<Returned, ExecuteError>)
      reads this
    {
      && effects == old(effects) && executions == old(executions)
      && forall x <- executions :: executions[x].key == KeyOf(r) ==>
           var e := executions[x];
           if e.tool == tool.id && e.agent == r.agent && e.call == r.call && SameJson(e.arguments, r.arguments)
              && e.progress.Succeeded?
           then answer == Ok(Returned(r, tool, e.progress.response, true))
           else answer.Err?
    }

    /** A call for a new key comes to what its effect answers, stored and returned. */
    twostate predicate AnswersNew(r: Request, tool: Tool, id: nat, world: World,
                                  new answer: Result<Returned, ExecuteError>)
      reads this
    {
      && id in executions && executions[id].key == KeyOf(r) && executions[id].tool == tool.id
      && (!world.recorded.Undone? ==> StoredEnd(executions[id].progress, Ending(world)))
      && (answer.Ok? <==> world.recorded.Acknowledged? && Ending(world).Ok?)
      && (answer.Ok? ==> answer.value == Returned(r, tool, Ending(world).value, false))
      && effects == old(effects) + if world.early.Some? then [] else [Effect(id, r, tool)]
    }

    /** What a call that may be run comes to when nobody interferes. */
    twostate predicate Answers(r: Request, tool: Tool, id: nat, world: World,
                               new answer: Result<Returned, ExecuteError>)
      reads this
    {
      if !world.claim.Acknowledged? then answer.Err? && effects == old(effects)
      else if forall x <- old(executions) :: old(executions)[x].key != KeyOf(r)
      then AnswersNew(r, tool, id, world, answer)
      else AnswersUsed(r, tool, answer)
    }

    /** `Execute`, with anything done by others in between. A success it returns is
        the stored response of the one execution of the request's key, and, unless it is
        a replay, what its own effect answered. Left alone it does for a request that is
        entitled to its tool what `Answers` says, and nothing for any other. */
    method Execute(w: nat, asked: Request, id: nat, world: World, env: nat -> seq<Event>)
      returns (answer: Result<Returned, ExecuteError>)
      requires Valid() && At(w).Idle?
      requires forall k, e :: e in env(k) ==> ActorOf(e) != Some(w)
      modifies this
      ensures Valid() && old(history) <= history
      ensures At(w).Idle?
      ensures answer.Ok? ==>
                && answer.value.request == asked.(toolCallId := Trim(asked.toolCallId))
                && exists x :: Backed(Tables(), answer.value, x)
      ensures answer.Ok? && !answer.value.replayed ==> FromEffect(world, answer.value)
      ensures !Askable(asked) ==> answer == Err(ExecuteError.BadRequest)
      ensures var r := asked.(toolCallId := Trim(asked.toolCallId));
              Quiet(env) && id !in old(executions) ==>
                if Askable(asked) && Entitled(old(Tables()), r)
                then Answers(r, ToolOf(old(Tables()), r), id, world, answer)
                else answer.Err? && effects == old(effects) && executions == old(executions)
    {
      var r := asked.(toolCallId := Trim(asked.toolCallId));
      TrimTwice(asked.toolCallId);
      if !WellFormedRequest(r) {
        return Err(ExecuteError.BadRequest);
      }
      var refused := AuthorizeCall(w, r, (k: nat) => env(k + 4));
      if refused.Some? {
        return Err(refused.value);
      }
      answer := ExecuteAuthorized(w, id, world, env);
    }

    /** `Execute` from the bound tool on. */
    method ExecuteAuthorized(w: nat, id: nat, world: World, env: nat -> seq<Event>)
      returns (answer: Result<Returned, ExecuteError>)
      requires Valid() && At(w).Bound?
      requires forall k, e :: e in env(k) ==> ActorOf(e) != Some(w)
      modifies this
      ensures Valid() && old(history) <= history
      ensures At(w).Idle?
      ensures answer.Ok? ==>
                answer.value.request == old(At(w).request) && exists x :: Backed(Tables(), answer.value, x)
      ensures answer.Ok? && !answer.value.replayed ==> FromEffect(world, answer.value)
      ensures Quiet(env) && id !in old(executions) ==>
                MayRun(old(Tables()), old(At(w)).request, old(At(w)).tool) ==>
                Answers(old(At(w)).request, old(At(w)).tool, id, world, answer)
    {
      Others(env(0), w);
      if id in executions {
        // The database generates ids: a duplicate would fail the statement.
        Stop(w);
        return Err(Internal);
      }
      answer := ClaimAndRun(w, id, world, (k: nat) => env(k + 1));
      if answer.Ok? {
        AnswerIsBacked(answer.value);
      }
    }
  }
}
