/** Agent creation under a plan limit: the organization row locked to the end of
    the transaction, agents counted and inserted, by single creates and by
    deployments of several agents with their tools. One event is one statement or
    transaction boundary; one that waits or matches no row changes nothing. */
module Capacity {
  import opened Sql

  datatype Agent = Agent(organization: nat, name: string)

  datatype Tool = Tool(agent: nat, name: string)

  /** Where a worker stands. `number` identifies the transaction; it sees committed
      rows and its own. */
  datatype Phase =
    | Idle
    | InTx(number: nat, organization: nat, locked: bool, counted: Option<nat>,
           agents: map<nat, Agent>, tools: map<nat, Tool>)

  /** `inserted` and `committed` record what each transaction did, for the results
      below; no statement reads them. */
  datatype State = State(
    active: set<nat>,
    agents: map<nat, Agent>,
    tools: map<nat, Tool>,
    workers: map<nat, Phase>,
    inserted: map<nat, set<nat>>,
    committed: set<nat>)

  datatype Event =
    | Switch(organization: nat, on: bool)
    | Begin(worker: nat, number: nat, organization: nat)
    | Lock(worker: nat)
    | Count(worker: nat)
    | Insert(worker: nat, id: nat, name: string, limit: int)
    | AddTool(worker: nat, id: nat, agent: nat, name: string)
    | Commit(worker: nat)
    | Rollback(worker: nat)

  function Initial(active: set<nat>): State {
    State(active, map[], map[], map[], map[], {})
  }

  function PhaseOf(s: State, w: nat): Phase {
    if w in s.workers then s.workers[w] else Idle
  }

  function With(s: State, w: nat, p: Phase): State {
    s.(workers := s.workers[w := p])
  }

  /** Somebody else holds the organization's row. */
  predicate LockedByOther(s: State, organization: nat, w: nat) {
    exists v <- s.workers ::
      v != w && s.workers[v].InTx? && s.workers[v].locked && s.workers[v].organization == organization
  }

  function AgentsOf(agents: map<nat, Agent>, organization: nat): set<nat> {
    set id | id in agents && agents[id].organization == organization
  }

  predicate IdTaken(s: State, id: nat) {
    exists n <- s.inserted :: id in s.inserted[n]
  }

  // ----------------------------------------------------------------------- steps

  function NextBegin(s: State, w: nat, number: nat, organization: nat): State {
    if !PhaseOf(s, w).Idle? || number in s.inserted then s
    else
      With(s, w, InTx(number, organization, false, None, map[], map[]))
      .(inserted := s.inserted[number := {}])
  }

  /** `LockOrganizationForCapacity ... FOR UPDATE`. */
  function NextLock(s: State, w: nat): State {
    var p := PhaseOf(s, w);
    if !p.InTx? || p.organization !in s.active || LockedByOther(s, p.organization, w) then s
    else With(s, w, p.(locked := true))
  }

  /** `CountOrganizationVoiceAgents`: committed rows and its own. */
  function NextCount(s: State, w: nat): State {
    var p := PhaseOf(s, w);
    if !p.InTx? || !p.locked then s
    else With(s, w, p.(counted := Some(|AgentsOf(s.agents + p.agents, p.organization)|)))
  }

  /** `CreateVoiceAgent`, after a count below the limit. */
  function NextInsert(s: State, w: nat, id: nat, name: string, limit: int): State {
    var p := PhaseOf(s, w);
    if !p.InTx? || p.counted.None? || p.counted.value >= limit || IdTaken(s, id)
       || p.number !in s.inserted then s
    else
      With(s, w, p.(counted := None, agents := p.agents[id := Agent(p.organization, name)]))
      .(inserted := s.inserted[p.number := s.inserted[p.number] + {id}])
  }

  /** A tool for an agent of the transaction. */
  function NextAddTool(s: State, w: nat, id: nat, agent: nat, name: string): State {
    var p := PhaseOf(s, w);
    if !p.InTx? || agent !in p.agents || id in s.tools
       || exists v <- s.workers :: s.workers[v].InTx? && id in s.workers[v].tools
    then s
    else With(s, w, p.(tools := p.tools[id := Tool(agent, name)]))
  }

  function NextCommit(s: State, w: nat): State {
    var p := PhaseOf(s, w);
    if !p.InTx? then s
    else
      With(s, w, Idle)
      .(agents := s.agents + p.agents, tools := s.tools + p.tools, committed := s.committed + {p.number})
  }

  /** Changing an organization needs its row: it waits for a holder. */
  function NextSwitch(s: State, organization: nat, on: bool): State {
    if exists v <- s.workers ::
         s.workers[v].InTx? && s.workers[v].locked && s.workers[v].organization == organization
    then s
    else s.(active := if on then s.active + {organization} else s.active - {organization})
  }

  function Next(s: State, e: Event): State {
    match e
    case Switch(organization, on) => NextSwitch(s, organization, on)
    case Begin(w, number, organization) => NextBegin(s, w, number, organization)
    case Lock(w) => NextLock(s, w)
    case Count(w) => NextCount(s, w)
    case Insert(w, id, name, limit) => NextInsert(s, w, id, name, limit)
    case AddTool(w, id, agent, name) => NextAddTool(s, w, id, agent, name)
    case Commit(w) => NextCommit(s, w)
    case Rollback(w) => With(s, w, Idle)
  }

  function Run(s: State, events: seq<Event>): State {
    if events == [] then s else Next(Run(s, events[..|events| - 1]), events[|events| - 1])
  }

  lemma {:induction false} RunConcat(s: State, a: seq<Event>, b: seq<Event>)
    ensures Run(s, a + b) == Run(Run(s, a), b)
  {
    if b == [] {
      assert a + b == a;
    } else {
      var n := |b| - 1;
      assert (a + b)[..|a| + n] == a + b[..n];
      RunConcat(s, a, b[..n]);
    }
  }

  // ------------------------------------------------------------------ invariants

  /** A transaction's agents are its organization's, inserted by it, under the lock;
      a count it has not used is still right. */
  ghost predicate TxOk(s: State, p: Phase) {
    p.InTx? ==>
      && p.number in s.inserted && p.number !in s.committed
      && p.agents.Keys == s.inserted[p.number]
      && (forall id <- p.agents :: p.agents[id].organization == p.organization)
      && (p.agents != map[] ==> p.locked)
      && (p.counted.Some? ==>
            p.locked && p.counted.value == |AgentsOf(s.agents + p.agents, p.organization)|)
  }

  ghost predicate WorkersOk(s: State) {
    && (forall w <- s.workers :: TxOk(s, s.workers[w]))
    && (forall v <- s.workers, w <- s.workers ::
          v != w && s.workers[v].InTx? && s.workers[w].InTx? ==>
            && s.workers[v].number != s.workers[w].number
            && (s.workers[v].locked && s.workers[w].locked ==>
                  s.workers[v].organization != s.workers[w].organization))
  }

  /** A row belongs to one transaction; the committed agents are exactly what the
      committed transactions inserted. */
  ghost predicate RowsOk(s: State) {
    && (forall m <- s.inserted, n <- s.inserted :: m != n ==> s.inserted[m] !! s.inserted[n])
    && s.committed <= s.inserted.Keys
    && (forall id :: id in s.agents <==> exists n <- s.committed :: n in s.inserted && id in s.inserted[n])
  }

  /** Every tool goes with its agent: committed, or in the same transaction. */
  ghost predicate ToolsOk(s: State) {
    && (forall id <- s.tools :: s.tools[id].agent in s.agents)
    && (forall w <- s.workers :: s.workers[w].InTx? ==>
          forall id <- s.workers[w].tools :: s.workers[w].tools[id].agent in s.workers[w].agents)
  }

  ghost predicate Inv(s: State) {
    WorkersOk(s) && RowsOk(s) && ToolsOk(s)
  }

  lemma StepKeepsTools(s: State, e: Event)
    requires ToolsOk(s)
    ensures ToolsOk(Next(s, e))
  {
  }

  /** Rows of other organizations do not change a count. */
  lemma CountUnaffected(base: map<nat, Agent>, published: map<nat, Agent>, own: map<nat, Agent>, organization: nat)
    requires published.Keys !! base.Keys
    requires forall id <- published :: published[id].organization != organization
    ensures AgentsOf(base + published + own, organization) == AgentsOf(base + own, organization)
  {
  }

  /** Inserted by an open transaction means not committed. */
  lemma OwnNotCommitted(s: State, w: nat)
    requires Inv(s) && PhaseOf(s, w).InTx?
    ensures PhaseOf(s, w).agents.Keys !! s.agents.Keys
  {
    var p := s.workers[w];
    assert TxOk(s, p);
    forall id | id in p.agents ensures id !in s.agents {
    }
  }

  lemma CommitKeepsOther(s: State, w: nat, v: nat)
    requires Inv(s) && v != w && PhaseOf(s, w).InTx? && v in s.workers
    ensures TxOk(NextCommit(s, w), s.workers[v])
  {
    var p, q := s.workers[w], s.workers[v];
    assert TxOk(s, p) && TxOk(s, q);
    if q.InTx? && q.counted.Some? {
      OwnNotCommitted(s, w);
      if p.agents == map[] {
        assert s.agents + p.agents == s.agents;
      } else {
        assert p.organization != q.organization;
        CountUnaffected(s.agents, p.agents, q.agents, q.organization);
      }
    }
  }

  lemma CommitKeeps(s: State, w: nat)
    requires Inv(s)
    ensures Inv(NextCommit(s, w))
  {
    StepKeepsTools(s, Commit(w));
    var p := PhaseOf(s, w);
    var t := NextCommit(s, w);
    if p.InTx? {
      assert TxOk(s, p);
      forall v | v in t.workers ensures TxOk(t, t.workers[v]) {
        if v != w {
          CommitKeepsOther(s, w, v);
        }
      }
      forall id ensures id in t.agents <==> exists n <- t.committed :: n in t.inserted && id in t.inserted[n] {
        if id in p.agents {
          assert p.number in t.committed && id in t.inserted[p.number];
        }
      }
    }
  }

  lemma InsertKeeps(s: State, w: nat, id: nat, name: string, limit: int)
    requires Inv(s)
    ensures Inv(NextInsert(s, w, id, name, limit))
  {
    StepKeepsTools(s, Insert(w, id, name, limit));
    var t := NextInsert(s, w, id, name, limit);
    var p := PhaseOf(s, w);
    if t != s {
      assert TxOk(s, p);
      forall v | v in t.workers ensures TxOk(t, t.workers[v]) {
        assert v in s.workers && TxOk(s, s.workers[v]);
      }
      forall x ensures x in t.agents <==> exists n <- t.committed :: n in t.inserted && x in t.inserted[n] {
        if x in t.agents {
          var n :| n in s.committed && n in s.inserted && x in s.inserted[n];
          assert n in t.committed && t.inserted[n] == s.inserted[n];
        }
        if n :| n in t.committed && n in t.inserted && x in t.inserted[n] {
          assert n in s.committed && t.inserted[n] == s.inserted[n];
        }
      }
    }
  }

  lemma BeginKeeps(s: State, w: nat, number: nat, organization: nat)
    requires Inv(s)
    ensures Inv(NextBegin(s, w, number, organization))
  {
    StepKeepsTools(s, Begin(w, number, organization));
    var t := NextBegin(s, w, number, organization);
    if t != s {
      forall v | v in t.workers ensures TxOk(t, t.workers[v]) {
        if v != w {
          assert TxOk(s, s.workers[v]);
        }
      }
      forall x ensures x in t.agents <==> exists n <- t.committed :: n in t.inserted && x in t.inserted[n] {
        if x in t.agents {
          var n :| n in s.committed && n in s.inserted && x in s.inserted[n];
          assert n in t.committed && t.inserted[n] == s.inserted[n];
        }
        if n :| n in t.committed && n in t.inserted && x in t.inserted[n] {
          assert n in s.committed && t.inserted[n] == s.inserted[n];
        }
      }
    }
  }

  lemma StepKeeps(s: State, e: Event)
    requires Inv(s)
    ensures Inv(Next(s, e))
  {
    StepKeepsTools(s, e);
    match e
    case Begin(w, number, organization) => BeginKeeps(s, w, number, organization);
    case Insert(w, id, name, limit) => InsertKeeps(s, w, id, name, limit);
    case Commit(w) => CommitKeeps(s, w);
    case _ =>
  }

  lemma {:induction false} RunKeeps(s: State, events: seq<Event>)
    requires Inv(s)
    ensures Inv(Run(s, events))
  {
    if events != [] {
      var n := |events| - 1;
      RunKeeps(s, events[..n]);
      StepKeeps(Run(s, events[..n]), events[n]);
    }
  }

  lemma InitialInv(active: set<nat>)
    ensures Inv(Initial(active))
  {
  }

  /** The organizations of those who hold their row are active. */
  ghost predicate HoldersActive(s: State) {
    forall w <- s.workers ::
      s.workers[w].InTx? && s.workers[w].locked ==> s.workers[w].organization in s.active
  }

  lemma HoldersStep(s: State, e: Event)
    requires HoldersActive(s)
    ensures HoldersActive(Next(s, e))
  {
  }

  /** In every run an organization stays active from the moment its row is locked to the
      end of the transaction: agents are inserted and committed for active ones only. */
  lemma {:induction false} OnlyActiveGrow(active: set<nat>, events: seq<Event>)
    ensures var s := Run(Initial(active), events);
            && HoldersActive(s)
            && forall w <- s.workers ::
                 s.workers[w].InTx? && s.workers[w].agents != map[] ==> s.workers[w].organization in s.active
  {
    InitialInv(active);
    RunKeeps(Initial(active), events);
    var s := Run(Initial(active), events);
    if events != [] {
      var n := |events| - 1;
      OnlyActiveGrow(active, events[..n]);
      HoldersStep(Run(Initial(active), events[..n]), events[n]);
    }
    forall w | w in s.workers && s.workers[w].InTx? && s.workers[w].agents != map[]
      ensures s.workers[w].organization in s.active
    {
      assert TxOk(s, s.workers[w]);
    }
  }

  // ----------------------------------------------------------------------- limit

  /** Agents of the organization in open transactions. */
  function InFlight(s: State, organization: nat): set<nat> {
    set w, id | w in s.workers && s.workers[w].InTx? && s.workers[w].organization == organization
                && id in s.workers[w].agents :: id
  }

  function All(s: State, organization: nat): set<nat> {
    AgentsOf(s.agents, organization) + InFlight(s, organization)
  }

  lemma {:induction false} SubsetSize(a: set<nat>, b: set<nat>)
    requires a <= b
    ensures |a| <= |b|
  {
    if a != {} {
      var x :| x in a;
      SubsetSize(a - {x}, b - {x});
    }
  }

  /** The holder of the lock sees everything there is of its organization. */
  lemma HolderSeesAll(s: State, w: nat)
    requires Inv(s) && PhaseOf(s, w).InTx? && PhaseOf(s, w).locked
    ensures var p := PhaseOf(s, w);
            AgentsOf(s.agents + p.agents, p.organization) == All(s, p.organization)
  {
    var p := s.workers[w];
    assert TxOk(s, p);
    OwnNotCommitted(s, w);
    forall v, id | v in s.workers && s.workers[v].InTx? && s.workers[v].organization == p.organization
                   && id in s.workers[v].agents
      ensures v == w
    {
      assert TxOk(s, s.workers[v]);
    }
  }

  /** The event inserts an agent of this organization. */
  predicate InsertsFor(s: State, e: Event, organization: nat) {
    e.Insert? && PhaseOf(s, e.worker).InTx? && PhaseOf(s, e.worker).organization == organization
  }

  lemma InsertWithin(s: State, w: nat, id: nat, name: string, limit: int, organization: nat)
    requires Inv(s) && PhaseOf(s, w).InTx? && PhaseOf(s, w).organization == organization
    requires NextInsert(s, w, id, name, limit) != s
    ensures |All(NextInsert(s, w, id, name, limit), organization)| <= limit
  {
    var t := NextInsert(s, w, id, name, limit);
    var p := s.workers[w];
    assert TxOk(s, p);
    HolderSeesAll(s, w);
    forall x | x in InFlight(t, organization) ensures x in InFlight(s, organization) + {id} {
      var v :| v in t.workers && t.workers[v].InTx? && t.workers[v].organization == organization
               && x in t.workers[v].agents;
      assert v in s.workers;
    }
    assert All(t, organization) <= All(s, organization) + {id};
    SubsetSize(All(t, organization), All(s, organization) + {id});
  }

  /** No other event adds to an organization. */
  lemma OtherAddsNothing(s: State, e: Event, organization: nat)
    requires Inv(s) && !InsertsFor(s, e, organization)
    ensures All(Next(s, e), organization) <= All(s, organization)
  {
    var t := Next(s, e);
    forall x | x in InFlight(t, organization) ensures x in InFlight(s, organization) {
      var v :| v in t.workers && t.workers[v].InTx? && t.workers[v].organization == organization
               && x in t.workers[v].agents;
      assert v in s.workers;
    }
    if e.Commit? && PhaseOf(s, e.worker).InTx? {
      assert TxOk(s, s.workers[e.worker]);
    }
  }

  lemma StepWithin(s: State, e: Event, organization: nat, limit: int)
    requires Inv(s) && |All(s, organization)| <= limit
    requires InsertsFor(s, e, organization) ==> e.limit <= limit
    ensures |All(Next(s, e), organization)| <= limit
  {
    if InsertsFor(s, e, organization) && Next(s, e) != s {
      InsertWithin(s, e.worker, e.id, e.name, e.limit, organization);
    } else if !InsertsFor(s, e, organization) {
      OtherAddsNothing(s, e, organization);
      SubsetSize(All(Next(s, e), organization), All(s, organization));
    }
  }

  /** Each create of the organization in the run goes by at most this limit. */
  predicate Limited(s: State, events: seq<Event>, organization: nat, limit: int) {
    events == [] ||
    var n := |events| - 1;
    && Limited(s, events[..n], organization, limit)
    && (InsertsFor(Run(s, events[..n]), events[n], organization) ==> events[n].limit <= limit)
  }

  /** Committed and in-flight agents of an organization never exceed its limit, in
      any interleaving of creates and deployments that commit or roll back. */
  lemma {:induction false} WithinLimit(s: State, events: seq<Event>, organization: nat, limit: int)
    requires Inv(s) && |All(s, organization)| <= limit && Limited(s, events, organization, limit)
    ensures |All(Run(s, events), organization)| <= limit
  {
    if events != [] {
      var n := |events| - 1;
      WithinLimit(s, events[..n], organization, limit);
      RunKeeps(s, events[..n]);
      StepWithin(Run(s, events[..n]), events[n], organization, limit);
    }
  }

  // ------------------------------------------------------------------ all or none

  /** Whatever a transaction inserted is committed together or not at all. */
  lemma AllOrNone(s: State, number: nat)
    requires Inv(s) && number in s.inserted
    ensures if number in s.committed then s.inserted[number] <= s.agents.Keys
            else s.inserted[number] !! s.agents.Keys
  {
    forall id | id in s.inserted[number] && number !in s.committed ensures id !in s.agents {
    }
  }

  predicate Ended(s: State, number: nat) {
    number in s.inserted && forall w <- s.workers :: s.workers[w].InTx? ==> s.workers[w].number != number
  }

  lemma EndStays(s: State, e: Event, number: nat)
    requires Inv(s) && Ended(s, number)
    ensures var t := Next(s, e);
            && Ended(t, number) && t.inserted[number] == s.inserted[number]
            && (number in t.committed <==> number in s.committed)
  {
    if e.Insert? && PhaseOf(s, e.worker).InTx? {
      assert s.workers[e.worker].number != number;
    }
  }

  /** And that is final: once a transaction has ended its agents stay committed, or
      never appear. */
  lemma {:induction false} EndIsFinal(s: State, events: seq<Event>, number: nat)
    requires Inv(s) && Ended(s, number)
    ensures var t := Run(s, events);
            && Ended(t, number) && t.inserted[number] == s.inserted[number]
            && (number in t.committed <==> number in s.committed)
            && if number in s.committed then s.inserted[number] <= t.agents.Keys
               else s.inserted[number] !! t.agents.Keys
  {
    RunKeeps(s, events);
    if events != [] {
      var n := |events| - 1;
      EndIsFinal(s, events[..n], number);
      RunKeeps(s, events[..n]);
      EndStays(Run(s, events[..n]), events[n], number);
    }
    AllOrNone(Run(s, events), number);
  }
}
