/** What every run of tool executions keeps, and the results about effects and
    answers that follow. */
module ToolSafety {
  import opened Sql
  import opened Binary64
  import opened Json
  import opened Text
  import opened ToolCatalog
  import opened Snapshot
  import opened ToolProtocol

  // ------------------------------------------------------------------ invariants

  /** The request was authorized by a session, which froze this very tool. */
  ghost predicate Granted(s: State, r: Request, tool: Tool) {
    && r.session in s.sessions
    && s.sessions[r.session].organization == r.organization
    && s.sessions[r.session].agent == r.agent
    && s.sessions[r.session].call == r.call
    && Resolve(s.sessions[r.session].snapshot, r.tool, r.name) == Some(tool)
  }

  /** The execution that was claimed for a request. */
  ghost predicate Records(s: State, id: nat, r: Request, tool: Tool) {
    && id in s.executions
    && s.executions[id].key == KeyOf(r)
    && s.executions[id].tool == tool.id
    && s.executions[id].agent == r.agent
    && s.executions[id].call == r.call
    && s.executions[id].arguments == Stored(r.arguments)
  }

  ghost predicate Started(s: State, id: nat) {
    exists k | 0 <= k < |s.effects| :: s.effects[k].id == id
  }

  ghost predicate PhaseOk(s: State, p: Phase) {
    && (!p.Idle? ==> Granted(s, p.request, p.tool))
    && (p.Owns() ==> Records(s, p.id, p.request, p.tool))
    && (p.Claimed? ==> !Started(s, p.id))
    && (p.Running? || (p.Settled? && p.outcome.Ok?) ==> Started(s, p.id))
  }

  ghost predicate KeysUnique(s: State) {
    forall i <- s.executions, j <- s.executions :: i != j ==> s.executions[i].key != s.executions[j].key
  }

  ghost predicate WorkersOk(s: State) {
    && (forall w <- s.workers :: PhaseOk(s, s.workers[w]))
    && (forall v <- s.workers, w <- s.workers ::
          v != w && s.workers[v].Owns() && s.workers[w].Owns() ==> s.workers[v].id != s.workers[w].id)
  }

  ghost predicate EffectsOk(s: State) {
    && (forall k | 0 <= k < |s.effects| ::
          Records(s, s.effects[k].id, s.effects[k].request, s.effects[k].tool)
          && Granted(s, s.effects[k].request, s.effects[k].tool))
    && (forall j, k | 0 <= j < k < |s.effects| :: s.effects[j].id != s.effects[k].id)
    && (forall id <- s.executions :: s.executions[id].progress.Succeeded? ==> Started(s, id))
  }

  /** The answer is the stored response of the execution asked for: claimed for this
      very request, or, when replayed, for one whose arguments compare the same. */
  ghost predicate Backed(s: State, r: Returned, id: nat) {
    && id in s.executions
    && s.executions[id].key == KeyOf(r.request)
    && s.executions[id].tool == r.tool.id
    && s.executions[id].agent == r.request.agent
    && s.executions[id].call == r.request.call
    && s.executions[id].progress == Succeeded(r.response)
    && Compared(s.executions[id].arguments, r)
  }

  predicate Compared(arguments: Jsonb, r: Returned) {
    if r.replayed then SameJson(arguments, r.request.arguments) else arguments == Stored(r.request.arguments)
  }

  ghost predicate Answered(s: State, r: Returned) {
    Granted(s, r.request, r.tool) && exists id :: Backed(s, r, id)
  }

  ghost predicate ReturnedOk(s: State) {
    forall k | 0 <= k < |s.returned| :: Answered(s, s.returned[k])
  }

  ghost predicate Inv(s: State) {
    KeysUnique(s) && WorkersOk(s) && EffectsOk(s) && ReturnedOk(s)
  }

  // ----------------------------------------------------------- what steps may do

  /** Executions keep their identity; only a processing one changes, to an end. */
  ghost predicate Ahead(a: map<nat, Execution>, b: map<nat, Execution>) {
    forall id <- a ::
      && id in b
      && b[id] == a[id].(progress := b[id].progress)
      && (!a[id].progress.Processing? ==> b[id] == a[id])
  }

  ghost predicate SessionsFixed(a: map<nat, Session>, b: map<nat, Session>) {
    forall id <- a :: id in b && b[id] == a[id].(active := b[id].active)
  }

  /** What holds of any two states of a run, the second later. */
  ghost predicate Later(a: State, b: State) {
    && Ahead(a.executions, b.executions)
    && SessionsFixed(a.sessions, b.sessions)
    && a.effects <= b.effects
    && a.returned <= b.returned
  }

  lemma ExecutionsAhead(s: State, e: Event, https: string -> bool)
    ensures Ahead(s.executions, Next(s, e, https).executions)
  {
  }

  lemma SessionsStay(s: State, e: Event, https: string -> bool)
    ensures SessionsFixed(s.sessions, Next(s, e, https).sessions)
  {
  }

  lemma StepLater(s: State, e: Event, https: string -> bool)
    ensures Later(s, Next(s, e, https))
  {
    ExecutionsAhead(s, e, https);
    SessionsStay(s, e, https);
  }

  lemma GrantedStays(a: State, b: State, r: Request, tool: Tool)
    requires SessionsFixed(a.sessions, b.sessions) && Granted(a, r, tool)
    ensures Granted(b, r, tool)
  {
  }

  lemma RecordsStay(a: State, b: State, id: nat, r: Request, tool: Tool)
    requires Ahead(a.executions, b.executions) && Records(a, id, r, tool)
    ensures Records(b, id, r, tool)
  {
  }

  lemma StartedStays(a: State, b: State, id: nat)
    requires a.effects <= b.effects && Started(a, id)
    ensures Started(b, id)
  {
    var k :| 0 <= k < |a.effects| && a.effects[k].id == id;
    assert b.effects[k].id == id;
  }

  /** A phase stays right in a later state with no new effect for its execution. */
  lemma PhaseStaysOk(a: State, b: State, p: Phase)
    requires Later(a, b) && PhaseOk(a, p)
    requires p.Claimed? ==> b.effects == a.effects || (b.effects == a.effects + [b.effects[|a.effects|]]
                                                       && b.effects[|a.effects|].id != p.id)
    ensures PhaseOk(b, p)
  {
    if !p.Idle? {
      GrantedStays(a, b, p.request, p.tool);
    }
    if p.Owns() {
      RecordsStay(a, b, p.id, p.request, p.tool);
    }
    if p.Running? || (p.Settled? && p.outcome.Ok?) {
      StartedStays(a, b, p.id);
    }
  }

  ghost function ActorOf(e: Event): Option<nat> {
    match e
    case Begin(w, _) => Some(w)
    case Gate(w) => Some(w)
    case Claim(w, _) => Some(w)
    case Dispatch(w) => Some(w)
    case Settle(w, _) => Some(w)
    case Record(w, _) => Some(w)
    case Replay(w, _) => Some(w)
    case Crash(w) => Some(w)
    case _ => None
  }

  // ------------------------------------------------------------ preservation

  lemma ClaimKeepsKeys(s: State, w: nat, id: nat)
    requires KeysUnique(s)
    ensures KeysUnique(NextClaim(s, w, id))
  {
  }

  /** Every other step keeps the keys that there are. */
  lemma KeysStay(s: State, e: Event, https: string -> bool)
    requires !e.Claim?
    ensures var t := Next(s, e, https);
            && t.executions.Keys == s.executions.Keys
            && forall id <- s.executions :: t.executions[id].key == s.executions[id].key
  {
  }

  lemma StepKeepsKeys(s: State, e: Event, https: string -> bool)
    requires Inv(s)
    ensures KeysUnique(Next(s, e, https))
  {
    if e.Claim? {
      ClaimKeepsKeys(s, e.worker, e.id);
    } else {
      KeysStay(s, e, https);
    }
  }

  lemma GateOk(s: State, w: nat)
    requires Inv(s)
    ensures PhaseOk(NextGate(s, w), PhaseOf(NextGate(s, w), w))
  {
    var p := PhaseOf(s, w);
    assert PhaseOk(s, p);
    if p.Resolved? {
      var live := LiveRow(s, p.request, p.tool.id);
      if live.Some? && Bind(live.value, p.tool).Some? {
        assert Bind(live.value, p.tool).value.tool == p.tool;
      }
    }
  }

  lemma ClaimOk(s: State, w: nat, id: nat)
    requires Inv(s)
    ensures PhaseOk(NextClaim(s, w, id), PhaseOf(NextClaim(s, w, id), w))
  {
    assert PhaseOk(s, PhaseOf(s, w));
    if Started(s, id) {
      var k :| 0 <= k < |s.effects| && s.effects[k].id == id;
      assert Records(s, s.effects[k].id, s.effects[k].request, s.effects[k].tool);
    }
  }

  lemma DispatchOk(s: State, w: nat)
    requires Inv(s)
    ensures PhaseOk(NextDispatch(s, w), PhaseOf(NextDispatch(s, w), w))
    ensures PhaseOf(s, w).Claimed? ==> Started(NextDispatch(s, w), PhaseOf(s, w).id)
  {
    var p := PhaseOf(s, w);
    assert PhaseOk(s, p);
    if p.Claimed? {
      var t := NextDispatch(s, w);
      assert t.effects[|s.effects|].id == p.id;
    }
  }

  lemma SettleOk(s: State, w: nat, outcome: Outcome)
    requires Inv(s)
    ensures PhaseOk(NextSettle(s, w, outcome), PhaseOf(NextSettle(s, w, outcome), w))
  {
    assert PhaseOk(s, PhaseOf(s, w));
  }

  lemma RecordOk(s: State, w: nat, recorded: CommitOutcome)
    requires Inv(s)
    ensures PhaseOk(NextRecord(s, w, recorded), PhaseOf(NextRecord(s, w, recorded), w))
  {
    assert PhaseOk(s, PhaseOf(s, w));
  }

  /** The phase the acting worker moves to is right. */
  lemma ActorOk(s: State, e: Event, https: string -> bool, w: nat)
    requires Inv(s) && ActorOf(e) == Some(w)
    ensures PhaseOk(Next(s, e, https), PhaseOf(Next(s, e, https), w))
  {
    assert PhaseOk(s, PhaseOf(s, w));
    match e
    case Gate(_) => GateOk(s, w);
    case Claim(_, id) => ClaimOk(s, w, id);
    case Dispatch(_) => DispatchOk(s, w);
    case Settle(_, outcome) => SettleOk(s, w, outcome);
    case Record(_, recorded) => RecordOk(s, w, recorded);
    case _ =>
  }

  lemma OtherUntouched(s: State, e: Event, https: string -> bool, w: nat)
    requires ActorOf(e) != Some(w)
    ensures PhaseOf(Next(s, e, https), w) == PhaseOf(s, w)
  {
  }

  lemma OnlyDispatchStarts(s: State, e: Event, https: string -> bool)
    ensures var t := Next(s, e, https);
            if e.Dispatch? && PhaseOf(s, e.worker).Claimed?
            then
              var p := PhaseOf(s, e.worker);
              t.effects == s.effects + [Effect(p.id, p.request, p.tool)]
            else t.effects == s.effects
  {
  }

  lemma OtherOk(s: State, e: Event, https: string -> bool, w: nat)
    requires Inv(s) && ActorOf(e) != Some(w) && w in s.workers
    ensures PhaseOk(Next(s, e, https), s.workers[w])
  {
    StepLater(s, e, https);
    OnlyDispatchStarts(s, e, https);
    PhaseStaysOk(s, Next(s, e, https), s.workers[w]);
  }

  /** A worker owns what it owned before, or an execution that did not exist. */
  lemma OwnedBefore(s: State, e: Event, https: string -> bool, w: nat)
    requires PhaseOf(Next(s, e, https), w).Owns()
    ensures var p, q := PhaseOf(s, w), PhaseOf(Next(s, e, https), w);
            (p.Owns() && p.id == q.id) || (q.id !in s.executions && ActorOf(e) == Some(w))
  {
  }

  lemma {:induction false} OthersLeave(s: State, events: seq<Event>, https: string -> bool, w: nat)
    requires forall e <- events :: ActorOf(e) != Some(w)
    ensures PhaseOf(Run(s, events, https), w) == PhaseOf(s, w)
  {
    if events != [] {
      var n := |events| - 1;
      assert events[n] in events && forall e <- events[..n] :: e in events;
      OthersLeave(s, events[..n], https, w);
      OtherUntouched(Run(s, events[..n], https), events[n], https, w);
    }
  }

  lemma StepKeepsOwners(s: State, e: Event, https: string -> bool, v: nat, w: nat)
    requires Inv(s) && v != w
    requires var t := Next(s, e, https); PhaseOf(t, v).Owns() && PhaseOf(t, w).Owns()
    ensures var t := Next(s, e, https); PhaseOf(t, v).id != PhaseOf(t, w).id
  {
    OwnedBefore(s, e, https, v);
    OwnedBefore(s, e, https, w);
    assert PhaseOk(s, PhaseOf(s, v)) && PhaseOk(s, PhaseOf(s, w));
  }

  lemma StepKeepsWorkers(s: State, e: Event, https: string -> bool)
    requires Inv(s)
    ensures WorkersOk(Next(s, e, https))
  {
    var t := Next(s, e, https);
    forall w | w in t.workers ensures PhaseOk(t, t.workers[w]) {
      if ActorOf(e) == Some(w) {
        ActorOk(s, e, https, w);
      } else {
        OtherUntouched(s, e, https, w);
        OtherOk(s, e, https, w);
      }
    }
    forall v, w | v in t.workers && w in t.workers && v != w && t.workers[v].Owns() && t.workers[w].Owns()
      ensures t.workers[v].id != t.workers[w].id
    {
      StepKeepsOwners(s, e, https, v, w);
    }
  }

  lemma StepKeepsEffects(s: State, e: Event, https: string -> bool)
    requires Inv(s)
    ensures EffectsOk(Next(s, e, https))
  {
    var t := Next(s, e, https);
    StepLater(s, e, https);
    OnlyDispatchStarts(s, e, https);
    if e.Dispatch? && PhaseOf(s, e.worker).Claimed? {
      var p := PhaseOf(s, e.worker);
      assert PhaseOk(s, p);
      forall k | 0 <= k < |s.effects| ensures s.effects[k].id != p.id {
        assert !Started(s, p.id);
      }
    }
    forall k | 0 <= k < |t.effects|
      ensures Records(t, t.effects[k].id, t.effects[k].request, t.effects[k].tool)
      ensures Granted(t, t.effects[k].request, t.effects[k].tool)
    {
      if k < |s.effects| {
        assert t.effects[k] == s.effects[k];
        RecordsStay(s, t, s.effects[k].id, s.effects[k].request, s.effects[k].tool);
        GrantedStays(s, t, s.effects[k].request, s.effects[k].tool);
      }
    }
    forall id | id in t.executions && t.executions[id].progress.Succeeded? ensures Started(t, id) {
      SuccessStarted(s, e, https, id);
    }
  }

  lemma SuccessStarted(s: State, e: Event, https: string -> bool, id: nat)
    requires Inv(s)
    requires id in Next(s, e, https).executions && Next(s, e, https).executions[id].progress.Succeeded?
    ensures Started(Next(s, e, https), id)
  {
    var t := Next(s, e, https);
    StepLater(s, e, https);
    if id in s.executions && !s.executions[id].progress.Succeeded? {
      assert e.Record? && PhaseOk(s, PhaseOf(s, e.worker));
    }
    StartedStays(s, t, id);
  }

  lemma BackedStays(a: State, b: State, r: Returned, id: nat)
    requires Later(a, b) && Backed(a, r, id)
    ensures Backed(b, r, id)
  {
  }

  /** A new answer is backed by the execution just recorded or just read. */
  lemma NewAnswerBacked(s: State, e: Event, https: string -> bool)
    requires Inv(s) && |Next(s, e, https).returned| > |s.returned|
    ensures var t := Next(s, e, https);
            t.returned == s.returned + [t.returned[|s.returned|]] && Answered(t, t.returned[|s.returned|])
  {
    var t := Next(s, e, https);
    var p := PhaseOf(s, e.worker);
    var r := t.returned[|s.returned|];
    assert PhaseOk(s, p);
    if e.Record? {
      assert Backed(t, r, p.id);
    } else {
      assert Backed(t, r, e.found.value);
    }
  }

  lemma AnswerStays(a: State, b: State, r: Returned)
    requires Answered(a, r) && Later(a, b)
    ensures Answered(b, r)
  {
    var id :| Backed(a, r, id);
    BackedStays(a, b, r, id);
    GrantedStays(a, b, r.request, r.tool);
  }

  lemma StepKeepsReturned(s: State, e: Event, https: string -> bool)
    requires Inv(s)
    ensures ReturnedOk(Next(s, e, https))
  {
    var t := Next(s, e, https);
    StepLater(s, e, https);
    if |t.returned| > |s.returned| {
      NewAnswerBacked(s, e, https);
    }
    forall k | 0 <= k < |t.returned| ensures Answered(t, t.returned[k]) {
      if k < |s.returned| {
        AnswerStays(s, t, s.returned[k]);
        assert t.returned[k] == s.returned[k];
      }
    }
  }

  lemma StepKeeps(s: State, e: Event, https: string -> bool)
    requires Inv(s)
    ensures Inv(Next(s, e, https)) && Later(s, Next(s, e, https))
  {
    StepLater(s, e, https);
    StepKeepsKeys(s, e, https);
    StepKeepsWorkers(s, e, https);
    StepKeepsEffects(s, e, https);
    StepKeepsReturned(s, e, https);
  }

  /** Over any run: the invariants hold, executions keep their identity and their
      end once they have one, sessions keep everything but their state, and nothing
      that happened is undone. */
  lemma {:induction false} RunKeeps(s: State, events: seq<Event>, https: string -> bool)
    requires Inv(s)
    ensures Inv(Run(s, events, https)) && Later(s, Run(s, events, https))
  {
    if events != [] {
      var n := |events| - 1;
      RunKeeps(s, events[..n], https);
      StepKeeps(Run(s, events[..n], https), events[n], https);
    }
  }

  // --------------------------------------------------------------------- results

  /** At most one outside effect is ever started for a key, whoever asks, crashes
      or reconciles; and it is started with the tool that the session's snapshot
      gives, whatever has become of the catalogue. */
  lemma AtMostOneEffect(now: int, events: seq<Event>, https: string -> bool)
    ensures var s := Run(Initial(now), events, https);
            && (forall j, k | 0 <= j < k < |s.effects| ::
                  KeyOf(s.effects[j].request) != KeyOf(s.effects[k].request))
            && (forall k | 0 <= k < |s.effects| ::
                  var r := s.effects[k].request;
                  r.session in s.sessions
                  && Resolve(s.sessions[r.session].snapshot, r.tool, r.name) == Some(s.effects[k].tool))
  {
    RunKeeps(Initial(now), events, https);
    var s := Run(Initial(now), events, https);
    forall j, k | 0 <= j < k < |s.effects|
      ensures KeyOf(s.effects[j].request) != KeyOf(s.effects[k].request)
    {
      assert Records(s, s.effects[j].id, s.effects[j].request, s.effects[j].tool);
      assert Records(s, s.effects[k].id, s.effects[k].request, s.effects[k].tool);
    }
  }

  /** From any moment on, whatever happens to the catalogue, every effect of a
      session runs what that moment's copy of the session had frozen. */
  lemma EffectsFollowSnapshot(now: int, before: seq<Event>, after: seq<Event>, https: string -> bool, k: nat)
    requires var t := Run(Run(Initial(now), before, https), after, https);
             k < |t.effects| && t.effects[k].request.session in Run(Initial(now), before, https).sessions
    ensures var s := Run(Initial(now), before, https);
            var e := Run(s, after, https).effects[k];
            Resolve(s.sessions[e.request.session].snapshot, e.request.tool, e.request.name) == Some(e.tool)
  {
    var s := Run(Initial(now), before, https);
    RunKeeps(Initial(now), before, https);
    RunKeeps(s, after, https);
    var e := Run(s, after, https).effects[k];
    assert Granted(Run(s, after, https), e.request, e.tool);
  }

  lemma BackedOnce(s: State, a: Returned, b: Returned, i: nat, j: nat)
    requires KeysUnique(s) && Backed(s, a, i) && Backed(s, b, j)
    requires KeyOf(a.request) == KeyOf(b.request)
    ensures i == j
  {
  }

  /** Any two successes returned for one key, fresh or replayed, whenever and to
      whomever, are the same response of the same tool to the same agent and call,
      and answer the one effect that was started for the key. */
  lemma AnswersAgree(now: int, events: seq<Event>, https: string -> bool, i: nat, j: nat)
    requires i < |Run(Initial(now), events, https).returned| && j < |Run(Initial(now), events, https).returned|
    requires KeyOf(Run(Initial(now), events, https).returned[i].request)
             == KeyOf(Run(Initial(now), events, https).returned[j].request)
    ensures var s := Run(Initial(now), events, https);
            var a, b := s.returned[i], s.returned[j];
            && a.response == b.response && a.tool == b.tool
            && a.request.agent == b.request.agent && a.request.call == b.request.call
            && exists k | 0 <= k < |s.effects| ::
                 KeyOf(s.effects[k].request) == KeyOf(a.request) && s.effects[k].tool == a.tool
                 && Compared(Stored(s.effects[k].request.arguments), a)
  {
    RunKeeps(Initial(now), events, https);
    var s := Run(Initial(now), events, https);
    var a, b := s.returned[i], s.returned[j];
    var x :| Backed(s, a, x);
    var y :| Backed(s, b, y);
    BackedOnce(s, a, b, x, y);
    SameToolInSession(s, a.request, a.tool, b.request, b.tool);
    assert Started(s, x);
    var k :| 0 <= k < |s.effects| && s.effects[k].id == x;
    var e := s.effects[k];
    assert Records(s, x, e.request, e.tool) && Granted(s, e.request, e.tool);
    SameToolInSession(s, a.request, a.tool, e.request, e.tool);
  }

  /** One id names one tool in a session. */
  lemma SameToolInSession(s: State, r: Request, t: Tool, q: Request, u: Tool)
    requires Granted(s, r, t) && Granted(s, q, u)
    requires r.session == q.session && t.id == u.id
    ensures t == u
  {
    var tools := s.sessions[r.session].snapshot.value;
    ResolveMeaning(tools, r.tool, r.name, t);
    ResolveMeaning(tools, q.tool, q.name, u);
    if t.id != NIL {
      ResolveMeaning(tools, t.id, "", t);
      ResolveMeaning(tools, t.id, "", u);
    }
  }

  /** Where effect and answer are about integers of at most 2^53 only, a success never
      reaches a request for other arguments than the effect ran with. */
  lemma AnswerIsForTheseArguments(now: int, events: seq<Event>, https: string -> bool, i: nat)
    requires i < |Run(Initial(now), events, https).returned|
    requires SafeIntegers(Stored(Run(Initial(now), events, https).returned[i].request.arguments))
    ensures var s := Run(Initial(now), events, https);
            var a := s.returned[i];
            exists k | 0 <= k < |s.effects| ::
              KeyOf(s.effects[k].request) == KeyOf(a.request)
              && (SafeIntegers(Stored(s.effects[k].request.arguments)) ==>
                    Stored(s.effects[k].request.arguments) == Stored(a.request.arguments))
  {
    AnswersAgree(now, events, https, i, i);
    var s := Run(Initial(now), events, https);
    var a := s.returned[i];
    var k :| 0 <= k < |s.effects|
      && KeyOf(s.effects[k].request) == KeyOf(a.request) && s.effects[k].tool == a.tool
      && Compared(Stored(s.effects[k].request.arguments), a);
    if a.replayed && SafeIntegers(Stored(s.effects[k].request.arguments)) {
      SameJsonOnSafeIntegers(s.effects[k].request.arguments, a.request.arguments);
    }
  }

  /** A replay answers whatever `sameJSON` takes for the stored arguments. */
  lemma AcceptedIsAnswered(s: State, w: nat, id: nat)
    requires PhaseOf(s, w).Replaying? && id in s.executions && s.executions[id].progress.Succeeded?
    requires var p, e := PhaseOf(s, w), s.executions[id];
             && e.key == KeyOf(p.request) && e.tool == p.tool.id
             && e.agent == p.request.agent && e.call == p.request.call
             && SameJson(e.arguments, p.request.arguments)
    ensures var p := PhaseOf(s, w);
            NextReplay(s, w, Some(id)).returned
            == s.returned + [Returned(p.request, p.tool, s.executions[id].progress.response, true)]
  {
  }

  /** Otherwise it can: the result for 1 answers a request for 1.00000000000000000001. */
  lemma OtherArgumentsAreAnswered(s: State, w: nat, id: nat)
    requires PhaseOf(s, w).Replaying? && id in s.executions && s.executions[id].progress.Succeeded?
    requires var p, e := PhaseOf(s, w), s.executions[id];
             && e.key == KeyOf(p.request) && e.tool == p.tool.id
             && e.agent == p.request.agent && e.call == p.request.call
             && e.arguments == Stored(OneNumber(ONE)) && p.request.arguments == OneNumber(NEARLY_ONE)
    ensures var p := PhaseOf(s, w);
            && Stored(p.request.arguments) != s.executions[id].arguments
            && NextReplay(s, w, Some(id)).returned
               == s.returned + [Returned(p.request, p.tool, s.executions[id].progress.response, true)]
  {
    ConfusedArguments();
    AcceptedIsAnswered(s, w, id);
  }

  /** A call repeated word for word after its success gets that success again, if and
      only if its arguments hold no negative zero. */
  lemma RepeatedCallIsAnswered(s: State, w: nat, id: nat)
    requires PhaseOf(s, w).Replaying? && Records(s, id, PhaseOf(s, w).request, PhaseOf(s, w).tool)
    requires s.executions[id].progress.Succeeded? && Decodes(PhaseOf(s, w).request.arguments)
    ensures |NextReplay(s, w, Some(id)).returned| > |s.returned|
            <==> !HasMinusZero(Literals(PhaseOf(s, w).request.arguments))
  {
    var a := PhaseOf(s, w).request.arguments;
    OwnRequest(a, a);
  }

  /** Once an execution has failed, by its worker or by reconciliation, it stays
      failed, and no success is returned for its key: none before, none ever. */
  lemma FailureIsFinal(now: int, before: seq<Event>, after: seq<Event>, https: string -> bool, id: nat)
    requires var s := Run(Initial(now), before, https);
             id in s.executions && s.executions[id].progress.Failed?
    ensures var s := Run(Initial(now), before, https);
            var t := Run(s, after, https);
            && id in t.executions && t.executions[id] == s.executions[id]
            && forall k | 0 <= k < |t.returned| :: KeyOf(t.returned[k].request) != s.executions[id].key
  {
    var s := Run(Initial(now), before, https);
    var t := Run(s, after, https);
    RunKeeps(Initial(now), before, https);
    RunKeeps(s, after, https);
    forall k | 0 <= k < |t.returned| ensures KeyOf(t.returned[k].request) != s.executions[id].key {
      var j :| Backed(t, t.returned[k], j);
    }
  }

  lemma ReconcileEnds(s: State, id: nat)
    requires id in s.executions && s.executions[id].startedAt + WINDOW <= s.now
    ensures var t := NextReconcile(s);
            && id in t.executions && !t.executions[id].progress.Processing?
            && (s.executions[id].progress.Processing? ==> t.executions[id].progress == Failed(UNCERTAIN))
  {
  }

  lemma EndedStays(s: State, events: seq<Event>, https: string -> bool, id: nat)
    requires Inv(s) && id in s.executions && !s.executions[id].progress.Processing?
    ensures id in Run(s, events, https).executions
    ensures Run(s, events, https).executions[id] == s.executions[id]
  {
    RunKeeps(s, events, https);
  }

  /** An interrupted execution does not stay uncertain: the first reconciliation
      90 s after its claim ends it, if nothing has before, and for good. */
  lemma {:induction false} InterruptedExecutionsEnd(s: State, after: seq<Event>, https: string -> bool, id: nat)
    requires Inv(s) && id in s.executions && s.executions[id].startedAt + WINDOW <= s.now
    ensures var t := Next(s, Reconcile, https);
            && id in t.executions && !t.executions[id].progress.Processing?
            && id in Run(t, after, https).executions
            && Run(t, after, https).executions[id] == t.executions[id]
  {
    StepKeeps(s, Reconcile, https);
    ReconcileEnds(s, id);
    EndedStays(Next(s, Reconcile, https), after, https, id);
  }

  /** A success in this step for an execution that had ended before is a replay. */
  lemma LateResultIsDropped(s: State, e: Event, https: string -> bool, id: nat)
    requires Inv(s) && id in s.executions && !s.executions[id].progress.Processing?
    ensures var t := Next(s, e, https);
            forall k | |s.returned| <= k < |t.returned| && KeyOf(t.returned[k].request) == s.executions[id].key ::
              t.returned[k].replayed
  {
    if e.Record? {
      var p := PhaseOf(s, e.worker);
      assert PhaseOk(s, p);
      if p.Settled? && KeyOf(p.request) == s.executions[id].key {
        assert p.id == id;
      }
    }
  }

  /** A worker that comes back after its execution was ended, by reconciliation say,
      changes nothing and answers nothing: over any run an ended execution stays as it
      is, and every success returned for its key from then on is a replay of it. */
  lemma {:induction false} LateResultsAreDropped(s: State, events: seq<Event>, https: string -> bool, id: nat)
    requires Inv(s) && id in s.executions && !s.executions[id].progress.Processing?
    ensures var t := Run(s, events, https);
            && id in t.executions && t.executions[id] == s.executions[id]
            && |s.returned| <= |t.returned|
            && forall k | |s.returned| <= k < |t.returned| && KeyOf(t.returned[k].request) == s.executions[id].key ::
                 t.returned[k].replayed && s.executions[id].progress == Succeeded(t.returned[k].response)
  {
    EndedStays(s, events, https, id);
    ReplaysOnly(s, events, https, id);
    RunKeeps(s, events, https);
    var t := Run(s, events, https);
    forall k | |s.returned| <= k < |t.returned| && KeyOf(t.returned[k].request) == s.executions[id].key
      ensures s.executions[id].progress == Succeeded(t.returned[k].response)
    {
      var j :| Backed(t, t.returned[k], j);
      assert j == id;
    }
  }

  lemma {:induction false} ReplaysOnly(s: State, events: seq<Event>, https: string -> bool, id: nat)
    requires Inv(s) && id in s.executions && !s.executions[id].progress.Processing?
    ensures var t := Run(s, events, https);
            && |s.returned| <= |t.returned|
            && forall k | |s.returned| <= k < |t.returned| && KeyOf(t.returned[k].request) == s.executions[id].key ::
                 t.returned[k].replayed
  {
    if events != [] {
      var n := |events| - 1;
      var t := Run(s, events[..n], https);
      ReplaysOnly(s, events[..n], https, id);
      RunKeeps(s, events[..n], https);
      EndedStays(s, events[..n], https, id);
      LateResultIsDropped(t, events[n], https, id);
      StepLater(t, events[n], https);
    }
  }
}
