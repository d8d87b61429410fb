/** The agent tables as mutable state, the statements as methods, and
    `CreateWithLimit` and `DeployPortable` on top of them with every other actor
    interleaved. */
module DeploymentStore {
  import opened Sql
  import opened Capacity

  datatype ToolPlan = ToolPlan(id: nat, name: string)

  /** One agent of a package, with the tools resolved for it. */
  datatype AgentPlan = AgentPlan(id: nat, name: string, tools: seq<ToolPlan>)

  function PlanIds(plans: seq<AgentPlan>): set<nat> {
    if plans == [] then {} else PlanIds(plans[..|plans| - 1]) + {plans[|plans| - 1].id}
  }

  /** The ids of these tools. */
  function Ids(plans: seq<ToolPlan>): set<nat> {
    if plans == [] then {} else Ids(plans[..|plans| - 1]) + {plans[|plans| - 1].id}
  }

  function ToolIds(plans: seq<AgentPlan>): set<nat> {
    if plans == [] then {} else ToolIds(plans[..|plans| - 1]) + Ids(plans[|plans| - 1].tools)
  }

  /** The tools can be inserted one after the other where these ids are taken. */
  ghost predicate FreshTools(tools: seq<ToolPlan>, taken: set<nat>) {
    forall k | 0 <= k < |tools| :: tools[k].id !in taken && tools[k].id !in Ids(tools[..k])
  }

  /** The package can be inserted: its ids are new, its definitions pass, and the limit
      that applies to each agent leaves room for it. */
  ghost predicate Fits(plans: seq<AgentPlan>, limits: nat -> int, sound: nat -> nat -> bool, has: nat,
                       agentIds: set<nat>, toolIds: set<nat>)
  {
    forall i | 0 <= i < |plans| ::
      && has + i < limits(i)
      && plans[i].id !in agentIds && plans[i].id !in PlanIds(plans[..i])
      && FreshTools(plans[i].tools, toolIds + ToolIds(plans[..i]))
      && forall k | 0 <= k < |plans[i].tools| :: sound(i)(k)
  }

  predicate HasTools(tools: map<nat, Tool>, plan: AgentPlan) {
    forall k | 0 <= k < |plan.tools| ::
      plan.tools[k].id in tools && tools[plan.tools[k].id] == Tool(plan.id, plan.tools[k].name)
  }

  predicate AllHaveTools(tools: map<nat, Tool>, plans: seq<AgentPlan>) {
    forall i | 0 <= i < |plans| :: HasTools(tools, plans[i])
  }

  /** The agents of the package, each under its id with its name. */
  predicate HasAgents(agents: map<nat, Agent>, organization: nat, plans: seq<AgentPlan>) {
    forall i | 0 <= i < |plans| ::
      plans[i].id in agents && agents[plans[i].id] == Agent(organization, plans[i].name)
  }

  lemma OneMoreHasAgents(before: map<nat, Agent>, organization: nat, plans: seq<AgentPlan>, i: nat)
    requires i < |plans| && HasAgents(before, organization, plans[..i]) && plans[i].id !in before
    ensures HasAgents(before[plans[i].id := Agent(organization, plans[i].name)], organization, plans[..i + 1])
  {
    forall j | 0 <= j < i ensures plans[j].id in before && before[plans[j].id] == Agent(organization, plans[j].name) {
      assert plans[..i][j] == plans[j];
    }
  }

  predicate Kept(before: map<nat, Tool>, after: map<nat, Tool>) {
    forall id <- before :: id in after && after[id] == before[id]
  }

  lemma OneMoreHasTools(before: map<nat, Tool>, after: map<nat, Tool>, plans: seq<AgentPlan>, i: nat)
    requires i < |plans| && AllHaveTools(before, plans[..i]) && Kept(before, after) && HasTools(after, plans[i])
    ensures AllHaveTools(after, plans[..i + 1])
  {
    forall j | 0 <= j < i ensures HasTools(after, plans[j]) {
      assert HasTools(before, plans[..i][j]);
    }
  }

  lemma NextTool(before: map<nat, Tool>, after: map<nat, Tool>, plan: AgentPlan, i: nat)
    requires i < |plan.tools| && HasTools(before, plan.(tools := plan.tools[..i])) && Kept(before, after)
    requires plan.tools[i].id in after && after[plan.tools[i].id] == Tool(plan.id, plan.tools[i].name)
    ensures HasTools(after, plan.(tools := plan.tools[..i + 1]))
  {
    forall k | 0 <= k < i
      ensures plan.tools[k].id in after && after[plan.tools[k].id] == Tool(plan.id, plan.tools[k].name)
    {
      assert plan.tools[..i][k] == plan.tools[k];
    }
  }

  lemma OneMoreAgent(committed: map<nat, Agent>, own: map<nat, Agent>, organization: nat, id: nat, name: string)
    requires id !in committed && id !in own
    ensures |AgentsOf(committed + own[id := Agent(organization, name)], organization)|
            == |AgentsOf(committed + own, organization)| + 1
  {
    assert AgentsOf(committed + own[id := Agent(organization, name)], organization)
           == AgentsOf(committed + own, organization) + {id};
  }

  datatype CreateError = NotFound | LimitReached | Failed

  ghost predicate ByOthers(env: nat -> seq<Event>, w: nat) {
    forall k, e :: e in env(k) ==> ActorOf(e) != Some(w)
  }

  function ActorOf(e: Event): Option<nat> {
    if e.Switch? then None else Some(e.worker)
  }

  lemma OtherLeaves(s: State, e: Event, w: nat)
    requires ActorOf(e) != Some(w)
    ensures PhaseOf(Next(s, e), w) == PhaseOf(s, w)
  {
  }

  lemma {:induction false} OthersLeave(s: State, events: seq<Event>, w: nat)
    requires forall e <- events :: ActorOf(e) != Some(w)
    ensures PhaseOf(Run(s, events), w) == PhaseOf(s, w)
  {
    if events != [] {
      var n := |events| - 1;
      assert events[n] in events && forall e <- events[..n] :: e in events;
      OthersLeave(s, events[..n], w);
      OtherLeaves(Run(s, events[..n]), events[n], w);
    }
  }

  /** Nobody else does anything. */
  ghost predicate Quiet(env: nat -> seq<Event>) {
    forall k :: env(k) == []
  }

  class Store {
    const start: set<nat>
    var active: set<nat>
    var agents: map<nat, Agent>
    var tools: map<nat, Tool>
    var workers: map<nat, Phase>
    var inserted: map<nat, set<nat>>
    var committed: set<nat>
    ghost var history: seq<Event>

    function Tables(): State
      reads this
    {
      State(active, agents, tools, workers, inserted, committed)
    }

    function At(w: nat): Phase
      reads this
    {
      PhaseOf(Tables(), w)
    }

    /** The tables are in the state to which the history leads. */
    ghost predicate Valid()
      reads this
    {
      Tables() == Run(Initial(start), history)
    }

    twostate predicate Did(e: Event)
      reads this
    {
      history == old(history) + [e] && Tables() == Next(old(Tables()), e)
    }

    /** Nobody else is in a transaction. */
    predicate Alone(w: nat)
      reads this
    {
      forall v <- workers :: v != w ==> workers[v].Idle?
    }

    /** Only this transaction has moved; what is committed is as before. */
    twostate predicate OnlyMoves(w: nat)
      reads this
    {
      && w in workers && workers == old(workers)[w := workers[w]]
      && active == old(active) && agents == old(agents) && tools == old(tools) && committed == old(committed)
    }

    /** How many agents the organization has, committed and in this transaction. */
    function Has(w: nat): nat
      requires At(w).InTx?
      reads this
    {
      |AgentsOf(agents + At(w).agents, At(w).organization)|
    }

    constructor (start: set<nat>)
      ensures Valid() && Tables() == Initial(start) && history == []
    {
      this.start, active := start, start;
      agents, tools, workers, inserted, committed := map[], map[], map[], map[], {};
      history := [];
    }

    lemma Reachable()
      requires Valid()
      ensures Inv(Tables())
    {
      RunKeeps(Initial(start), history);
    }

    twostate lemma Extends(e: Event)
      requires old(Valid()) && Did(e)
      ensures Valid()
    {
      assert history[..|history| - 1] == old(history);
    }

    /** Everything the other actors do before this one's next statement. */
    method Others(events: seq<Event>, self: nat)
      requires Valid() && forall e <- events :: ActorOf(e) != Some(self)
      modifies this
      ensures Valid() && history == old(history) + events
      ensures Tables() == Run(old(Tables()), events)
      ensures events == [] ==> Tables() == old(Tables())
      ensures At(self) == old(At(self))
    {
      OthersLeave(Tables(), events, self);
      RunConcat(Initial(start), history, events);
      Become(Run(Tables(), events));
      history := history + events;
    }

    method Become(next: State)
      modifies this
      ensures Tables() == next && history == old(history)
    {
      active, agents, tools := next.active, next.agents, next.tools;
      workers, inserted, committed := next.workers, next.inserted, next.committed;
    }

    method BeginTransaction(w: nat, number: nat, organization: nat)
      requires Valid() && At(w).Idle? && number !in inserted
      modifies this
      ensures Valid() && Did(Begin(w, number, organization)) && OnlyMoves(w)
      ensures inserted == old(inserted)[number := {}]
      ensures At(w) == InTx(number, organization, false, None, map[], map[])
    {
      workers := workers[w := InTx(number, organization, false, None, map[], map[])];
      inserted := inserted[number := {}];
      history := history + [Begin(w, number, organization)];
      Extends(Begin(w, number, organization));
    }

    /** `LockOrganizationForCapacity`: no row, no lock. */
    method LockOrganization(w: nat)
      requires Valid() && At(w).InTx?
      modifies this
      ensures Valid() && Did(Lock(w)) && inserted == old(inserted)
      ensures OnlyMoves(w)
      ensures old(Alone(w)) ==> (At(w).locked <==> old(At(w)).locked || At(w).organization in active)
      ensures At(w).InTx? && At(w) == old(At(w)).(locked := At(w).locked)
    {
      var p := At(w);
      if p.organization in active && !LockedByOther(Tables(), p.organization, w) {
        workers := workers[w := p.(locked := true)];
      }
      history := history + [Lock(w)];
      Extends(Lock(w));
    }

    /** `CountOrganizationVoiceAgents`: all there is, as nobody else can add. */
    method CountAgents(w: nat) returns (count: nat)
      requires Valid() && At(w).InTx? && At(w).locked
      modifies this
      ensures Valid() && Did(Count(w))
      ensures At(w) == old(At(w)).(counted := Some(count))
      ensures count == |All(Tables(), At(w).organization)|
      ensures OnlyMoves(w) && inserted == old(inserted) && count == Has(w)
    {
      Reachable();
      HolderSeesAll(Tables(), w);
      var p := At(w);
      count := |AgentsOf(agents + p.agents, p.organization)|;
      workers := workers[w := p.(counted := Some(count))];
      history := history + [Count(w)];
      Extends(Count(w));
      Reachable();
      HolderSeesAll(Tables(), w);
    }

    /** `CreateVoiceAgent` under the count just read. */
    method InsertAgent(w: nat, id: nat, name: string, limit: int)
      requires Valid() && At(w).InTx? && At(w).counted.Some? && At(w).counted.value < limit
      requires !IdTaken(Tables(), id) && At(w).number in inserted
      modifies this
      ensures Valid() && Did(Insert(w, id, name, limit))
      ensures At(w) == old(At(w)).(counted := None,
                                   agents := old(At(w)).agents[id := Agent(old(At(w)).organization, name)])
      ensures |All(Tables(), At(w).organization)| <= limit
      ensures OnlyMoves(w)
      ensures inserted == old(inserted)[At(w).number := old(inserted)[At(w).number] + {id}]
    {
      Reachable();
      var p := At(w);
      assert TxOk(Tables(), p);
      assert id !in inserted[p.number];
      InsertWithin(Tables(), w, id, name, limit, p.organization);
      workers := workers[w := p.(counted := None, agents := p.agents[id := Agent(p.organization, name)])];
      inserted := inserted[p.number := inserted[p.number] + {id}];
      history := history + [Insert(w, id, name, limit)];
      Extends(Insert(w, id, name, limit));
    }

    method InsertTool(w: nat, id: nat, agent: nat, name: string) returns (ok: bool)
      requires Valid() && At(w).InTx?
      modifies this
      ensures Valid() && Did(AddTool(w, id, agent, name))
      ensures At(w).InTx? && At(w) == old(At(w)).(tools := At(w).tools)
      ensures Kept(old(At(w)).tools, At(w).tools)
      ensures ok ==> id in At(w).tools && At(w).tools[id] == Tool(agent, name)
      ensures OnlyMoves(w) && inserted == old(inserted)
      ensures At(w).tools == if ok then old(At(w)).tools[id := Tool(agent, name)] else old(At(w)).tools
      ensures old(Alone(w)) ==>
                (ok <==> agent in old(At(w)).agents && id !in tools && id !in old(At(w)).tools)
    {
      var p := At(w);
      ok := agent in p.agents && id !in tools
        && !exists v <- workers :: workers[v].InTx? && id in workers[v].tools;
      if ok {
        workers := workers[w := p.(tools := p.tools[id := Tool(agent, name)])];
      }
      history := history + [AddTool(w, id, agent, name)];
      Extends(AddTool(w, id, agent, name));
    }

    method CommitTransaction(w: nat)
      requires Valid() && At(w).InTx?
      modifies this
      ensures Valid() && Did(Commit(w)) && At(w).Idle?
      ensures old(At(w)).number in committed && inserted == old(inserted)
      ensures Kept(old(At(w)).tools, tools)
      ensures agents == old(agents) + old(At(w)).agents && tools == old(tools) + old(At(w)).tools
    {
      var p := At(w);
      agents, tools := agents + p.agents, tools + p.tools;
      committed := committed + {p.number};
      workers := workers[w := Idle];
      history := history + [Commit(w)];
      Extends(Commit(w));
    }

    method RollbackTransaction(w: nat)
      requires Valid()
      modifies this
      ensures Valid() && Did(Rollback(w)) && At(w).Idle?
      ensures agents == old(agents) && tools == old(tools) && committed == old(committed)
      ensures inserted == old(inserted)
    {
      workers := workers[w := Idle];
      history := history + [Rollback(w)];
      Extends(Rollback(w));
    }

    /** The lock and the count of `createWithLimitInTx`. A lock that is not had is
        given up on. */
    method LockAndCount(w: nat, env: nat -> seq<Event>) returns (count: Option<nat>)
      requires Valid() && At(w).InTx? && ByOthers(env, w)
      modifies this
      ensures Valid() && old(history) <= history
      ensures At(w).InTx? && At(w) == old(At(w)).(locked := At(w).locked, counted := At(w).counted)
      ensures count.Some? ==> At(w).counted == count == Some(Has(w))
      ensures count.None? ==> !At(w).locked
      ensures Quiet(env) ==> OnlyMoves(w) && inserted == old(inserted)
      ensures Quiet(env) && old(Alone(w)) ==>
                if old(At(w)).locked || At(w).organization in active then count == Some(Has(w)) else count.None?
    {
      Others(env(0), w);
      LockOrganization(w);
      if !At(w).locked {
        return None;
      }
      Others(env(1), w);
      var n := CountAgents(w);
      count := Some(n);
    }

    lemma FreshId(w: nat, id: nat)
      requires Valid() && At(w).InTx? && !IdTaken(Tables(), id)
      ensures id !in At(w).agents
    {
      Reachable();
      assert TxOk(Tables(), At(w));
    }

    /** The agent ids ever used. */
    ghost function Taken(): set<nat>
      reads this
    {
      set n, id | n in inserted && id in inserted[n] :: id
    }

    lemma TakenMeans(id: nat)
      ensures IdTaken(Tables(), id) <==> id in Taken()
    {
    }

    /** An id that no transaction has used is no agent's. */
    lemma FreshIsNew(w: nat, id: nat)
      requires Valid() && At(w).InTx? && !IdTaken(Tables(), id)
      ensures id !in agents && id !in At(w).agents
    {
      Reachable();
      assert TxOk(Tables(), At(w));
    }

    /** The insert, counted. */
    method InsertOne(w: nat, id: nat, name: string, limit: int)
      requires Valid() && At(w).InTx? && At(w).counted.Some? && At(w).counted.value < limit
      requires !IdTaken(Tables(), id) && At(w).number in inserted
      modifies this
      ensures Valid() && old(history) <= history && OnlyMoves(w)
      ensures At(w) == old(At(w)).(counted := None,
                                   agents := old(At(w)).agents[id := Agent(old(At(w)).organization, name)])
      ensures Has(w) == old(Has(w)) + 1 && Taken() <= old(Taken()) + {id}
    {
      FreshIsNew(w, id);
      OneMoreAgent(agents, At(w).agents, At(w).organization, id, name);
      ghost var before := inserted;
      InsertAgent(w, id, name, limit);
      TakenOneMore(before, At(w).number, id);
    }

    lemma TakenOneMore(before: map<nat, set<nat>>, number: nat, id: nat)
      requires number in before && inserted == before[number := before[number] + {id}]
      ensures Taken() <= (set n, x | n in before && x in before[n] :: x) + {id}
    {
    }

    lemma NumberKnown(w: nat)
      requires Valid() && At(w).InTx?
      ensures At(w).number in inserted && At(w).number !in committed && At(w).agents.Keys == inserted[At(w).number]
    {
      Reachable();
      assert TxOk(Tables(), At(w));
    }

    /** `createWithLimitInTx`: lock, count, compare, insert. */
    method CreateWithLimitInTx(w: nat, id: nat, name: string, limit: int, env: nat -> seq<Event>)
      returns (error: Option<CreateError>)
      requires Valid() && At(w).InTx? && ByOthers(env, w)
      modifies this
      ensures Valid() && old(history) <= history
      ensures At(w).InTx? && At(w).number == old(At(w)).number && At(w).tools == old(At(w)).tools
      ensures error.None? ==> At(w).agents.Keys == old(At(w)).agents.Keys + {id} && id !in old(At(w)).agents
      ensures At(w).organization == old(At(w)).organization
      ensures error.None? ==> At(w).agents == old(At(w)).agents[id := Agent(At(w).organization, name)]
      ensures error.Some? ==> At(w).agents == old(At(w)).agents
      ensures error == Some(LimitReached) ==> Has(w) >= limit
      ensures error == Some(NotFound) ==> !At(w).locked
      ensures Quiet(env) ==> OnlyMoves(w)
      ensures Quiet(env) && error.None? ==>
                Has(w) == old(Has(w)) + 1 && Taken() <= old(Taken()) + {id}
      ensures Quiet(env) && old(Alone(w)) ==>
                error == if !old(At(w)).locked && At(w).organization !in old(active) then Some(NotFound)
                         else if old(Has(w)) >= limit then Some(LimitReached)
                         else if id in old(Taken()) then Some(Failed)
                         else None
    {
      var count := LockAndCount(w, env);
      if count.None? {
        return Some(NotFound);
      }
      if count.value >= limit {
        return Some(LimitReached);
      }
      Others(env(2), w);
      TakenMeans(id);
      if IdTaken(Tables(), id) {
        // The database generates ids: a duplicate would fail the statement.
        return Some(Failed);
      }
      FreshId(w, id);
      NumberKnown(w);
      InsertOne(w, id, name, limit);
      error := None;
    }

    /** One of them. */
    method CreateTool(w: nat, plan: AgentPlan, i: nat, others: seq<Event>) returns (ok: bool)
      requires Valid() && At(w).InTx? && i < |plan.tools| && forall e <- others :: ActorOf(e) != Some(w)
      requires HasTools(At(w).tools, plan.(tools := plan.tools[..i]))
      modifies this
      ensures Valid() && old(history) <= history
      ensures At(w).InTx? && At(w) == old(At(w)).(tools := At(w).tools)
      ensures Kept(old(At(w)).tools, At(w).tools)
      ensures ok ==> HasTools(At(w).tools, plan.(tools := plan.tools[..i + 1]))
      ensures others == [] ==> OnlyMoves(w) && inserted == old(inserted)
      ensures others == [] ==> At(w).tools.Keys == old(At(w)).tools.Keys + if ok then {plan.tools[i].id} else {}
      ensures others == [] && old(Alone(w)) && plan.id in At(w).agents ==>
                (ok <==> plan.tools[i].id !in tools && plan.tools[i].id !in old(At(w)).tools)
    {
      Others(others, w);
      ghost var before := At(w).tools;
      ok := InsertTool(w, plan.tools[i].id, plan.id, plan.tools[i].name);
      if ok {
        NextTool(before, At(w).tools, plan, i);
      }
    }

    /** The tools of one deployed agent. `sound` tells which definitions pass. */
    method CreateTools(w: nat, plan: AgentPlan, sound: nat -> bool, env: nat -> seq<Event>)
      returns (ok: bool)
      requires Valid() && At(w).InTx? && ByOthers(env, w)
      modifies this
      ensures Valid() && old(history) <= history
      ensures At(w).InTx? && At(w) == old(At(w)).(tools := At(w).tools)
      ensures Kept(old(At(w)).tools, At(w).tools)
      ensures ok ==> HasTools(At(w).tools, plan)
      ensures Quiet(env) ==> OnlyMoves(w) && inserted == old(inserted)
      ensures Quiet(env) && ok ==> At(w).tools.Keys == old(At(w)).tools.Keys + Ids(plan.tools)
      ensures Quiet(env) && old(Alone(w)) && plan.id in At(w).agents ==>
                (forall k | 0 <= k < |plan.tools| :: sound(k)) ==>
                FreshTools(plan.tools, tools.Keys + old(At(w)).tools.Keys) ==> ok
    {
      assert workers == workers[w := workers[w]];
      for i := 0 to |plan.tools|
        invariant Valid() && old(history) <= history
        invariant At(w).InTx? && At(w) == old(At(w)).(tools := At(w).tools)
        invariant Kept(old(At(w)).tools, At(w).tools)
        invariant HasTools(At(w).tools, plan.(tools := plan.tools[..i]))
        invariant Quiet(env) ==>
                    && OnlyMoves(w) && inserted == old(inserted)
                    && At(w).tools.Keys == old(At(w)).tools.Keys + Ids(plan.tools[..i])
      {
        if !sound(i) {
          return false;
        }
        var added := CreateTool(w, plan, i, env(i));
        if !added {
          return false;
        }
        assert plan.tools[..i + 1][..i] == plan.tools[..i];
      }
      assert plan.tools[..|plan.tools|] == plan.tools;
      ok := true;
    }

    /** The agent and its tools can be inserted now. */
    ghost predicate Room(w: nat, plan: AgentPlan, limit: int, sound: nat -> bool)
      requires At(w).InTx?
      reads this
    {
      && Alone(w) && At(w).organization in active
      && Has(w) < limit && plan.id !in Taken()
      && (forall k | 0 <= k < |plan.tools| :: sound(k))
      && FreshTools(plan.tools, tools.Keys + At(w).tools.Keys)
    }

    /** `deploy`: one agent and its tools in the transaction. Left alone it succeeds where
        there is room. */
    method Deploy(w: nat, plan: AgentPlan, limit: int, sound: nat -> bool, env: nat -> seq<Event>)
      returns (ok: bool)
      requires Valid() && At(w).InTx? && ByOthers(env, w)
      modifies this
      ensures Valid() && old(history) <= history
      ensures At(w).InTx? && At(w).number == old(At(w)).number && At(w).organization == old(At(w)).organization
      ensures ok ==> plan.id !in old(At(w)).agents
      ensures ok ==> At(w).agents == old(At(w)).agents[plan.id := Agent(At(w).organization, plan.name)]
      ensures ok ==> Kept(old(At(w)).tools, At(w).tools) && HasTools(At(w).tools, plan)
      ensures Quiet(env) ==> OnlyMoves(w)
      ensures Quiet(env) && ok ==>
                && Has(w) == old(Has(w)) + 1 && Taken() <= old(Taken()) + {plan.id}
                && At(w).tools.Keys == old(At(w)).tools.Keys + Ids(plan.tools)
      ensures Quiet(env) && old(Room(w, plan, limit, sound)) ==> ok
    {
      var error := CreateWithLimitInTx(w, plan.id, plan.name, limit, env);
      if error.Some? {
        return false;
      }
      ok := CreateTools(w, plan, sound, (k: nat) => env(k + 3));
    }

    /** Everything that a quiet deployment has done so far. */
    ghost predicate Deployed(w: nat, plans: seq<AgentPlan>, has: nat, taken: set<nat>, stored: set<nat>)
      requires At(w).InTx?
      reads this
    {
      && Alone(w) && At(w).organization in active && tools.Keys == stored
      && Has(w) == has + |plans|
      && At(w).tools.Keys == ToolIds(plans)
      && Taken() <= taken + PlanIds(plans)
    }

    lemma RoomForNext(w: nat, plans: seq<AgentPlan>, i: nat, limits: nat -> int, sound: nat -> nat -> bool,
                      has: nat, taken: set<nat>, stored: set<nat>)
      requires At(w).InTx? && i < |plans| && Deployed(w, plans[..i], has, taken, stored)
      requires Fits(plans, limits, sound, has, taken, stored)
      ensures Room(w, plans[i], limits(i), sound(i))
    {
    }

    /** One round of it. */
    method DeployNext(w: nat, plans: seq<AgentPlan>, i: nat, limits: nat -> int, sound: nat -> nat -> bool,
                      env: nat -> seq<Event>, ghost fine: bool, ghost has: nat, ghost taken: set<nat>,
                      ghost stored: set<nat>)
      returns (ok: bool)
      requires Valid() && At(w).InTx? && i < |plans| && ByOthers(env, w)
      requires AllHaveTools(At(w).tools, plans[..i])
      requires HasAgents(At(w).agents, At(w).organization, plans[..i])
      requires fine ==>
                 Quiet(env) && Deployed(w, plans[..i], has, taken, stored)
                 && Fits(plans, limits, sound, has, taken, stored)
      modifies this
      ensures Valid() && old(history) <= history
      ensures At(w).InTx? && At(w).number == old(At(w)).number && At(w).organization == old(At(w)).organization
      ensures ok ==> At(w).agents.Keys == old(At(w)).agents.Keys + {plans[i].id}
      ensures ok ==> HasAgents(At(w).agents, At(w).organization, plans[..i + 1])
      ensures ok ==> AllHaveTools(At(w).tools, plans[..i + 1])
      ensures fine ==> ok && Deployed(w, plans[..i + 1], has, taken, stored)
    {
      ghost var before, agentsBefore := At(w).tools, At(w).agents;
      if fine {
        RoomForNext(w, plans, i, limits, sound, has, taken, stored);
      }
      assert plans[..i + 1][..i] == plans[..i];
      ok := Deploy(w, plans[i], limits(i), sound(i), env);
      if ok {
        OneMoreHasTools(before, At(w).tools, plans, i);
        OneMoreHasAgents(agentsBefore, At(w).organization, plans, i);
      }
    }

    /** The loop of `DeployPortable` over the agents, inside the transaction. `fine` tells
        that nobody interferes and that the package fits. */
    method DeployAgents(w: nat, plans: seq<AgentPlan>, limits: nat -> int, sound: nat -> nat -> bool,
                        env: nat -> nat -> seq<Event>, ghost fine: bool, ghost has: nat, ghost taken: set<nat>,
                        ghost stored: set<nat>)
      returns (ok: bool)
      requires Valid() && At(w).InTx? && At(w).agents == map[]
      requires forall i :: ByOthers(env(i), w)
      requires fine ==>
                 && (forall i :: Quiet(env(i))) && Deployed(w, [], has, taken, stored)
                 && Fits(plans, limits, sound, has, taken, stored)
      modifies this
      ensures Valid() && old(history) <= history
      ensures At(w).InTx? && At(w).number == old(At(w)).number && At(w).organization == old(At(w)).organization
      ensures ok ==> At(w).agents.Keys == PlanIds(plans) && AllHaveTools(At(w).tools, plans)
      ensures ok ==> HasAgents(At(w).agents, At(w).organization, plans)
      ensures fine ==> ok
    {
      var result: set<nat> := {};
      assert plans[..0] == [];
      for i := 0 to |plans|
        invariant Valid() && old(history) <= history
        invariant At(w).InTx? && At(w).number == old(At(w)).number && At(w).organization == old(At(w)).organization
        invariant At(w).agents.Keys == result == PlanIds(plans[..i])
        invariant AllHaveTools(At(w).tools, plans[..i]) && HasAgents(At(w).agents, At(w).organization, plans[..i])
        invariant fine ==> Deployed(w, plans[..i], has, taken, stored)
      {
        assert plans[..i + 1][..i] == plans[..i];
        ok := DeployNext(w, plans, i, limits, sound, env(i), fine, has, taken, stored);
        if !ok {
          return false;
        }
        result := result + {plans[i].id};
      }
      assert plans[..|plans|] == plans;
      ok := true;
    }

    /** A committed transaction's agents are all there, any other's are not. */
    lemma Outcome(number: nat)
      requires Valid() && number in inserted
      ensures if number in committed then inserted[number] <= agents.Keys else inserted[number] !! agents.Keys
    {
      Reachable();
      AllOrNone(Tables(), number);
    }

    /** The end of a transaction: committed, or given up with the deferred rollback.
        It succeeds only when the commit is acknowledged, but a commit that reports
        an error may have been carried out. */
    method EndTransaction(w: nat, ready: bool, outcome: CommitOutcome) returns (ok: bool)
      requires Valid() && At(w).InTx? && At(w).number !in committed
      modifies this
      ensures Valid() && old(history) <= history && At(w).Idle?
      ensures ok <==> ready && outcome.Acknowledged?
      ensures old(At(w)).number in committed <==> ready && !outcome.Undone?
      ensures inserted == old(inserted)
      ensures old(At(w)).number in committed ==> Kept(old(At(w)).tools, tools)
      ensures agents == if ready && !outcome.Undone? then old(agents) + old(At(w)).agents else old(agents)
    {
      if ready && !outcome.Undone? {
        CommitTransaction(w);
      } else {
        RollbackTransaction(w);
      }
      ok := ready && outcome.Acknowledged?;
    }

    lemma SameTaken(before: map<nat, set<nat>>, number: nat)
      requires number !in before && inserted == before[number := {}]
      ensures Taken() == set n, id | n in before && id in before[n] :: id
    {
      forall id ensures id in Taken() <==> exists n :: n in before && id in before[n] {
        if n :| n in before && id in before[n] {
          assert n in inserted && id in inserted[n];
        }
      }
    }

    /** The end of a deployment's transaction, with what its rows say afterwards. */
    method EndDeployment(w: nat, plans: seq<AgentPlan>, ready: bool, outcome: CommitOutcome) returns (ok: bool)
      requires Valid() && At(w).InTx?
      requires ready ==> At(w).agents.Keys == PlanIds(plans) && AllHaveTools(At(w).tools, plans)
      requires ready ==> HasAgents(At(w).agents, At(w).organization, plans)
      modifies this
      ensures Valid() && old(history) <= history && At(w).Idle?
      ensures ok <==> ready && outcome.Acknowledged?
      ensures old(At(w)).number in inserted
      ensures old(At(w)).number in committed <==> ready && !outcome.Undone?
      ensures old(At(w)).number in committed ==>
                && inserted[old(At(w)).number] == PlanIds(plans) <= agents.Keys && AllHaveTools(tools, plans)
                && HasAgents(agents, old(At(w)).organization, plans)
      ensures old(At(w)).number !in committed ==> inserted[old(At(w)).number] !! agents.Keys
    {
      Reachable();
      assert TxOk(Tables(), At(w));
      ghost var number, made := At(w).number, At(w).tools;
      ok := EndTransaction(w, ready, outcome);
      if number in committed {
        forall i | 0 <= i < |plans| ensures HasTools(tools, plans[i]) {
          assert HasTools(made, plans[i]);
        }
      }
      Outcome(number);
    }

    /** The beginning of a transaction for new agents: nothing has been inserted so far. */
    method BeginCreation(w: nat, number: nat, organization: nat)
      requires Valid() && At(w).Idle? && number !in inserted
      modifies this
      ensures Valid() && old(history) <= history
      ensures At(w).InTx? && At(w).number == number && At(w).agents == map[]
      ensures old(Alone(w)) ==> Alone(w)
      ensures At(w).organization == organization && !At(w).locked
      ensures Taken() == old(Taken()) && Has(w) == |AgentsOf(old(agents), organization)|
      ensures active == old(active) && agents == old(agents) && tools == old(tools)
      ensures old(Alone(w)) && organization in old(active) ==>
                Deployed(w, [], |AgentsOf(old(agents), organization)|, old(Taken()), old(tools.Keys))
    {
      ghost var before := inserted;
      BeginTransaction(w, number, organization);
      SameTaken(before, number);
      assert agents + map[] == agents;
    }

    /** `DeployPortable`: one transaction for all agents of the package. Success
        means that it has committed; whatever it answers, afterwards all agents and
        tools of the package are there, or nothing of what it inserted is. */
    method DeployPortable(w: nat, number: nat, organization: nat, plans: seq<AgentPlan>, limits: nat -> int,
                          sound: nat -> nat -> bool, outcome: CommitOutcome, env: nat -> nat -> seq<Event>)
      returns (ok: bool)
      requires Valid() && At(w).Idle? && number !in inserted
      requires forall i :: ByOthers(env(i), w)
      modifies this
      ensures Valid() && old(history) <= history && At(w).Idle?
      ensures number in inserted
      ensures ok ==> number in committed
      ensures number in committed ==>
                && inserted[number] == PlanIds(plans) <= agents.Keys
                && HasAgents(agents, organization, plans) && AllHaveTools(tools, plans)
      ensures number !in committed ==> inserted[number] !! agents.Keys
      ensures (forall i :: Quiet(env(i))) && old(Alone(w)) && organization in old(active) ==>
                Fits(plans, limits, sound, |AgentsOf(old(agents), organization)|, old(Taken()), old(tools.Keys)) ==>
                  (ok <==> outcome.Acknowledged?)
    {
      ghost var has, taken, stored := |AgentsOf(agents, organization)|, Taken(), tools.Keys;
      ghost var fine := (forall i :: Quiet(env(i))) && Alone(w) && organization in active
        && Fits(plans, limits, sound, has, taken, stored);
      BeginCreation(w, number, organization);
      ok := DeployAgents(w, plans, limits, sound, env, fine, has, taken, stored);
      ok := EndDeployment(w, plans, ok, outcome);
    }

    /** The end of such a transaction: its agents are there, or none of them is. */
    method EndCreation(w: nat, ready: bool, outcome: CommitOutcome) returns (ok: bool)
      requires Valid() && At(w).InTx?
      modifies this
      ensures Valid() && old(history) <= history && At(w).Idle?
      ensures ok <==> ready && outcome.Acknowledged?
      ensures old(At(w)).number in inserted && inserted[old(At(w)).number] == old(At(w)).agents.Keys
      ensures old(At(w)).number in committed <==> ready && !outcome.Undone?
      ensures old(At(w)).number !in committed ==> inserted[old(At(w)).number] !! agents.Keys
      ensures agents == if old(At(w)).number in committed then old(agents) + old(At(w)).agents else old(agents)
    {
      Reachable();
      assert TxOk(Tables(), At(w));
      ghost var number := At(w).number;
      ok := EndTransaction(w, ready, outcome);
      Outcome(number);
    }

    /** `CreateWithLimit` outside a deployment: a transaction for one agent, which
        is there afterwards or nothing is. */
    method CreateWithLimit(w: nat, number: nat, organization: nat, id: nat, name: string, limit: int,
                           outcome: CommitOutcome, env: nat -> seq<Event>)
      returns (error: Option<CreateError>)
      requires Valid() && At(w).Idle? && number !in inserted && ByOthers(env, w)
      modifies this
      ensures Valid() && old(history) <= history && At(w).Idle?
      ensures number in inserted
      ensures error.None? ==> number in committed
      ensures number in committed ==> inserted[number] == {id} <= agents.Keys
      ensures number in committed ==> agents[id] == Agent(organization, name)
      ensures number !in committed ==> inserted[number] !! agents.Keys
      ensures error == Some(LimitReached) ==> |AgentsOf(agents, organization)| >= limit
      ensures Quiet(env) && old(Alone(w)) ==>
                error == if organization !in old(active) then Some(NotFound)
                         else if |AgentsOf(old(agents), organization)| >= limit then Some(LimitReached)
                         else if id in old(Taken()) || !outcome.Acknowledged? then Some(Failed)
                         else None
    {
      BeginCreation(w, number, organization);
      error := CreateWithLimitInTx(w, id, name, limit, env);
      assert error.Some? ==> agents + At(w).agents == agents;
      var ok := EndCreation(w, error.None?, outcome);
      if error.None? && !ok {
        error := Some(Failed);
      }
    }
  }
}
