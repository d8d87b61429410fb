/** Where stored results come from: what the one effect of an execution answered, or
    the reconciler; and who may have an effect started. */
module ToolOutcomes {
  import opened Sql
  import opened Text
  import opened Json
  import opened ToolCatalog
  import opened Snapshot
  import opened ToolProtocol
  import opened ToolSafety

  // ---------------------------------------------------------------------- results

  /** The step reports the end of this execution's effect, or an error before it. */
  predicate Reports(s: State, e: Event, id: nat, outcome: Outcome) {
    e.Settle? && e.outcome == outcome &&
    var p := PhaseOf(s, e.worker);
    (p.Running? || (p.Claimed? && outcome.Err?)) && p.id == id
  }

  /** The step is a reconciliation more than a minute and a half after the claim. */
  predicate GivesUp(s: State, e: Event, id: nat) {
    e.Reconcile? && id in s.executions && s.executions[id].startedAt + 90 * SECOND <= s.now
  }

  ghost predicate WasReported(s: State, events: seq<Event>, https: string -> bool, id: nat, outcome: Outcome) {
    exists k | 0 <= k < |events| :: Reports(Run(s, events[..k], https), events[k], id, outcome)
  }

  ghost predicate WasGivenUp(s: State, events: seq<Event>, https: string -> bool, id: nat) {
    exists k | 0 <= k < |events| :: GivesUp(Run(s, events[..k], https), events[k], id)
  }

  lemma ReportedStays(s: State, events: seq<Event>, https: string -> bool, id: nat, outcome: Outcome)
    requires events != [] && WasReported(s, events[..|events| - 1], https, id, outcome)
    ensures WasReported(s, events, https, id, outcome)
  {
    var n := |events| - 1;
    var k :| 0 <= k < n && Reports(Run(s, events[..n][..k], https), events[..n][k], id, outcome);
    assert events[..n][..k] == events[..k];
  }

  lemma GivenUpStays(s: State, events: seq<Event>, https: string -> bool, id: nat)
    requires events != [] && WasGivenUp(s, events[..|events| - 1], https, id)
    ensures WasGivenUp(s, events, https, id)
  {
    var n := |events| - 1;
    var k :| 0 <= k < n && GivesUp(Run(s, events[..n][..k], https), events[..n][k], id);
    assert events[..n][..k] == events[..k];
  }

  lemma SettledStep(s: State, e: Event, https: string -> bool, w: nat)
    requires PhaseOf(Next(s, e, https), w).Settled?
    ensures var p := PhaseOf(Next(s, e, https), w);
            PhaseOf(s, w) == p || Reports(s, e, p.id, p.outcome)
  {
  }

  lemma {:induction false} SettledWasReported(s: State, events: seq<Event>, https: string -> bool, w: nat)
    requires s.workers == map[] && PhaseOf(Run(s, events, https), w).Settled?
    ensures var p := PhaseOf(Run(s, events, https), w); WasReported(s, events, https, p.id, p.outcome)
  {
    if events != [] {
      var n := |events| - 1;
      var t := Run(s, events[..n], https);
      var p := PhaseOf(Run(s, events, https), w);
      SettledStep(t, events[n], https, w);
      if PhaseOf(t, w) == p {
        SettledWasReported(s, events[..n], https, w);
        ReportedStays(s, events, https, p.id, p.outcome);
      }
    }
  }

  /** What a step may do to an execution: store the outcome its worker carries, or give
      it up. */
  lemma ProgressStep(s: State, e: Event, https: string -> bool, id: nat)
    requires id in Next(s, e, https).executions && !Next(s, e, https).executions[id].progress.Processing?
    requires !(id in s.executions && s.executions[id].progress == Next(s, e, https).executions[id].progress)
    ensures var q := Next(s, e, https).executions[id].progress;
            || (e.Record? && PhaseOf(s, e.worker).Settled? && PhaseOf(s, e.worker).id == id
                && match PhaseOf(s, e.worker).outcome
                   case Ok(response) => q == Succeeded(response)
                   case Err(message) => q == Failed(message))
            || (GivesUp(s, e, id) && q == Failed(UNCERTAIN))
  {
  }

  /** In every run a stored response is what the effect of that execution answered; a
      stored failure is its error, or stands for a reconciliation 90 seconds or more
      after the claim. */
  lemma {:induction false} StoredWasReported(s: State, events: seq<Event>, https: string -> bool, id: nat)
    requires s.workers == map[] && s.executions == map[] && id in Run(s, events, https).executions
    ensures match Run(s, events, https).executions[id].progress
            case Processing => true
            case Succeeded(response) => WasReported(s, events, https, id, Ok(response))
            case Failed(message) =>
              || WasReported(s, events, https, id, Err(message))
              || (message == UNCERTAIN && WasGivenUp(s, events, https, id))
  {
    if events != [] {
      var n := |events| - 1;
      var t, u := Run(s, events[..n], https), Run(s, events, https);
      if !u.executions[id].progress.Processing? {
        if id in t.executions && t.executions[id].progress == u.executions[id].progress {
          StoredWasReported(s, events[..n], https, id);
          StoredStays(s, events, https, id, u.executions[id].progress);
        } else {
          ProgressStep(t, events[n], https, id);
          if events[n].Record? && PhaseOf(t, events[n].worker).Settled? {
            var p := PhaseOf(t, events[n].worker);
            SettledWasReported(s, events[..n], https, events[n].worker);
            ReportedStays(s, events, https, p.id, p.outcome);
          }
        }
      }
    }
  }

  lemma StoredStays(s: State, events: seq<Event>, https: string -> bool, id: nat, progress: Progress)
    requires events != []
    requires match progress
             case Processing => true
             case Succeeded(response) => WasReported(s, events[..|events| - 1], https, id, Ok(response))
             case Failed(message) =>
               || WasReported(s, events[..|events| - 1], https, id, Err(message))
               || (message == UNCERTAIN && WasGivenUp(s, events[..|events| - 1], https, id))
    ensures match progress
            case Processing => true
            case Succeeded(response) => WasReported(s, events, https, id, Ok(response))
            case Failed(message) =>
              || WasReported(s, events, https, id, Err(message))
              || (message == UNCERTAIN && WasGivenUp(s, events, https, id))
  {
    match progress
    case Processing =>
    case Succeeded(response) => ReportedStays(s, events, https, id, Ok(response));
    case Failed(message) =>
      if WasReported(s, events[..|events| - 1], https, id, Err(message)) {
        ReportedStays(s, events, https, id, Err(message));
      } else {
        GivenUpStays(s, events, https, id);
      }
  }

  /** Every success returned, fresh or replayed, is what the effect of its key's
      execution answered. */
  lemma AnswersWereReported(now: int, events: seq<Event>, https: string -> bool, i: nat) returns (id: nat)
    requires i < |Run(Initial(now), events, https).returned|
    ensures var s := Run(Initial(now), events, https);
            && id in s.executions && s.executions[id].key == KeyOf(s.returned[i].request)
            && WasReported(Initial(now), events, https, id, Ok(s.returned[i].response))
  {
    RunKeeps(Initial(now), events, https);
    var s := Run(Initial(now), events, https);
    assert Answered(s, s.returned[i]);
    id :| Backed(s, s.returned[i], id);
    StoredWasReported(Initial(now), events, https, id);
  }

  /** While a worker owns an execution, others can only give it up. */
  lemma {:induction false} OthersOnlyGiveUp(s: State, events: seq<Event>, https: string -> bool, w: nat)
    requires Inv(s) && PhaseOf(s, w).Owns() && forall e <- events :: ActorOf(e) != Some(w)
    ensures var id := PhaseOf(s, w).id;
            && id in s.executions && id in Run(s, events, https).executions
            && (Run(s, events, https).executions[id].progress == s.executions[id].progress
                || (s.executions[id].progress.Processing?
                    && Run(s, events, https).executions[id].progress == Failed(UNCERTAIN)))
  {
    var id := PhaseOf(s, w).id;
    assert PhaseOk(s, PhaseOf(s, w));
    if events != [] {
      var n := |events| - 1;
      var t := Run(s, events[..n], https);
      assert events[n] in events && forall e <- events[..n] :: e in events;
      OthersOnlyGiveUp(s, events[..n], https, w);
      OthersLeave(s, events[..n], https, w);
      RunKeeps(s, events[..n], https);
      OtherOnlyGivesUp(t, events[n], https, w);
    }
  }

  lemma OtherOnlyGivesUp(s: State, e: Event, https: string -> bool, w: nat)
    requires Inv(s) && PhaseOf(s, w).Owns() && ActorOf(e) != Some(w)
    ensures var id := PhaseOf(s, w).id;
            && id in s.executions && id in Next(s, e, https).executions
            && (Next(s, e, https).executions[id].progress == s.executions[id].progress
                || (s.executions[id].progress.Processing?
                    && Next(s, e, https).executions[id].progress == Failed(UNCERTAIN)))
  {
    var id := PhaseOf(s, w).id;
    assert PhaseOk(s, PhaseOf(s, w));
    StepLater(s, e, https);
    if Next(s, e, https).executions[id].progress != s.executions[id].progress {
      ProgressStep(s, e, https, id);
    }
  }

  // --------------------------------------------------------------- authorization

  /** A definition that can be run. */
  predicate Runnable(t: Tool) {
    && t.id != NIL && Trim(t.name) != "" && 100 <= t.timeout <= 30_000 && t.parameters.Object?
    && (t.kind.Builtin? || t.kind.Webhook?)
    && (t.kind.Builtin? ==> t.endpoint.None?)
    && (t.kind.Webhook? ==> t.endpoint.Some? && Trim(t.endpoint.value) != "")
  }

  /** Resolution fails closed: one definition that could not be run, a repeated id or a
      repeated name denies everything. So the executor's own complaints, about a missing
      endpoint, a wrong timeout or an unsupported type, cannot be reached. */
  lemma ResolvesOnlyRunnable(tools: seq<Tool>, id: nat, name: string)
    ensures Resolve(Some(tools), id, name).Some? <==>
              && (forall t <- tools :: Runnable(t))
              && (forall i, j | 0 <= i < j < |tools| :: tools[i].id != tools[j].id && tools[i].name != tools[j].name)
              && (exists t <- tools ::
                    (id != NIL || name != "") && (id == NIL || t.id == id) && (name == "" || t.name == name))
  {
    ResolveSucceeds(tools, id, name);
    forall t ensures WellFormed(t) <==> Runnable(t) {
    }
    assert Apart(tools) <==>
      forall i, j | 0 <= i < j < |tools| :: tools[i].id != tools[j].id && tools[i].name != tools[j].name;
  }

  /** A request that can be looked at: it says who asks, for which tool, under which id,
      and with which object. */
  predicate Askable(r: Request) {
    && r.organization > 0 && r.agent > 0 && r.session > 0 && r.call > 0
    && (r.tool > 0 || Trim(r.name) != "")
    && 0 < |Trim(r.toolCallId)| < 256
    && r.arguments.DObject? && Decodes(r.arguments)
  }

  /** The tool that this request may have run now: the session is active and its own,
      its snapshot has the tool, and the live row is there and enabled. */
  ghost predicate MayRun(s: State, r: Request, t: Tool) {
    && r.session in s.sessions
    && s.sessions[r.session].active
    && s.sessions[r.session].organization == r.organization
    && s.sessions[r.session].agent == r.agent
    && s.sessions[r.session].call == r.call
    && Resolve(s.sessions[r.session].snapshot, r.tool, r.name) == Some(t)
    && t.id in s.rows
    && s.rows[t.id].organization == r.organization && s.rows[t.id].agent == r.agent
    && s.rows[t.id].enabled && s.rows[t.id].tool.id == t.id
    && r.organization in s.organizations && r.agent in s.agents
  }

  /** The tool that the session's snapshot gives for the request. */
  ghost function ToolOf(s: State, r: Request): Tool
    requires Entitled(s, r)
  {
    Resolve(s.sessions[r.session].snapshot, r.tool, r.name).value
  }

  ghost predicate Entitled(s: State, r: Request) {
    && r.session in s.sessions
    && Resolve(s.sessions[r.session].snapshot, r.tool, r.name).Some?
    && MayRun(s, r, Resolve(s.sessions[r.session].snapshot, r.tool, r.name).value)
  }

  /** The step claims a new execution. */
  predicate Claims(s: State, e: Event, https: string -> bool, id: nat) {
    id !in s.executions && id in Next(s, e, https).executions
  }

  /** An execution is claimed only while the session is active and the live row of the
      session's own tool is there and enabled, for a key that has none. */
  lemma ClaimNeeds(s: State, e: Event, https: string -> bool, id: nat)
    requires Inv(s) && Claims(s, e, https, id)
    ensures var x := Next(s, e, https).executions[id];
            && x.key.session in s.sessions && s.sessions[x.key.session].active
            && s.sessions[x.key.session].organization == x.key.organization
            && s.sessions[x.key.session].agent == x.agent && s.sessions[x.key.session].call == x.call
            && x.tool in s.rows && s.rows[x.tool].enabled
            && s.rows[x.tool].organization == x.key.organization && s.rows[x.tool].agent == x.agent
            && x.key.organization in s.organizations
            && (forall other <- s.executions :: s.executions[other].key != x.key)
            && x.progress.Processing? && x.startedAt == s.now
            && s.sessions[x.key.session].snapshot.Some?
            && (exists t <- s.sessions[x.key.session].snapshot.value :: t.id == x.tool)
  {
    var p := PhaseOf(s, e.worker);
    assert PhaseOk(s, p);
    ResolveMeaning(s.sessions[p.request.session].snapshot.value, p.request.tool, p.request.name, p.tool);
  }

  /** Once a session has been closed, nothing is claimed for it any more. */
  lemma {:induction false} ClosedSessionClaimsNothing(s: State, events: seq<Event>, https: string -> bool, session: nat)
    requires Inv(s) && session in s.sessions && !s.sessions[session].active
    ensures session in Run(s, events, https).sessions && !Run(s, events, https).sessions[session].active
    ensures forall id <- Run(s, events, https).executions ::
              Run(s, events, https).executions[id].key.session == session ==> id in s.executions
  {
    if events != [] {
      var n := |events| - 1;
      var t := Run(s, events[..n], https);
      ClosedSessionClaimsNothing(s, events[..n], https, session);
      RunKeeps(s, events[..n], https);
      StepLater(t, events[n], https);
      ClosedStays(t, events[n], https, session);
      forall id | id in Next(t, events[n], https).executions
                  && Next(t, events[n], https).executions[id].key.session == session
        ensures id in s.executions
      {
        if id !in t.executions {
          ClaimNeeds(t, events[n], https, id);
        }
      }
    }
  }

  lemma ClosedStays(s: State, e: Event, https: string -> bool, session: nat)
    requires session in s.sessions && !s.sessions[session].active
    ensures session in Next(s, e, https).sessions && !Next(s, e, https).sessions[session].active
  {
  }
}
