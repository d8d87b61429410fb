/** The call and session tables as mutable state, the statements as methods, and
    `AttachCall` and `CompleteCall` on top of them with every other actor
    interleaved. */
module AttachStore {
  import opened Sql
  import opened Sessions
  import CallOutcomes

  datatype AttachError = BadRequest | Conflict | NotFound | Refused

  /** A session that is there for the call, none wanted or found, or an error. */
  datatype Attachment = Attached(id: nat) | NotAttached | Failure(error: AttachError)

  /** Nobody else does anything. */
  ghost predicate Quiet(env: nat -> seq<Event>) {
    forall k :: env(k) == []
  }

  class Store {
    const epoch: int
    var now: int
    var calls: map<nat, Call>
    var sessions: map<nat, Session>
    var organizations: set<nat>
    var agents: set<nat>
    ghost var history: seq<Event>

    function Tables(): State
      reads this
    {
      State(now, calls, sessions, organizations, agents)
    }

    /** The tables are in the state to which the history leads. */
    ghost predicate Valid()
      reads this
    {
      Tables() == Run(Initial(epoch), history)
    }

    twostate predicate Did(e: Event)
      reads this
    {
      history == old(history) + [e] && Tables() == Next(old(Tables()), e)
    }

    constructor (epoch: int)
      ensures Valid() && Tables() == Initial(epoch) && history == []
    {
      this.epoch, now := epoch, epoch;
      calls, sessions, organizations, agents := map[], map[], {}, {};
      history := [];
    }

    lemma Reachable()
      requires Valid()
      ensures Inv(Tables())
    {
      RunKeeps(Initial(epoch), history);
    }

    twostate lemma Extends(e: Event)
      requires old(Valid()) && Did(e)
      ensures Valid()
    {
      assert history[..|history| - 1] == old(history);
    }

    /** `MarkCallRinging` to `MarkCallResumed` and `SetOutboundCallSIPCallID`. */
    method Mark(organization: nat, id: nat, mark: Mark) returns (found: bool)
      requires Valid()
      modifies this`calls, this`history
      ensures Valid() && Did(MarkCall(organization, id, mark))
      ensures found <==>
                id in old(calls) && old(calls)[id].organization == organization
                && CallOutcomes.Applies(old(calls)[id], mark)
      ensures !found ==> calls == old(calls)
    {
      if id in calls {
        CallOutcomes.MarkedFollowsGraph(calls[id], mark, now);
        CallOutcomes.AppliesMeaning(calls[id], mark);
      }
      found := id in calls && calls[id].organization == organization;
      if found {
        var c := calls[id];
        match mark {
          case Ring => found := c.status.Initiating?;
            c := c.(status := Ringing);
          case Answer => found := c.status in {Initiating, Ringing};
            c := c.(status := Answered, answeredAt := Some(Coalesce(c.answeredAt, now)));
          case Activate => found := c.status in {Answered, Ringing};
            c := c.(status := Active);
          case Complete => found := c.status !in {Completed, Failed, Cancelled};
            c := c.(status := Completed, endedAt := Some(Coalesce(c.endedAt, now)));
          case Fail => found := c.status !in {Completed, Failed, Cancelled};
            c := c.(status := Failed, endedAt := Some(Coalesce(c.endedAt, now)));
          case Cancel => found := c.status in {Initiating, Ringing};
            c := c.(status := Cancelled, endedAt := Some(Coalesce(c.endedAt, now)));
          case Hold => found := c.status in {Answered, Active} && !c.held;
            c := c.(held := true);
          case Resume => found := c.status in {Answered, Active} && c.held;
            c := c.(held := false);
          case Bind(sip) => found := c.outbound && (c.sipCallId.None? || c.sipCallId.value == sip);
            c := c.(sipCallId := Some(sip));
        }
        if found {
          calls := calls[id := c];
        }
      }
      if !found && id in calls {
        assert calls[id := calls[id]] == calls;
      }
      history := history + [MarkCall(organization, id, mark)];
      Extends(MarkCall(organization, id, mark));
    }

    /** An agent may join the call: it is the call's own, the call has been answered and
        has not ended, and agent and organization are active. */
    predicate Joinable(organization: nat, call: nat, agent: nat)
      reads this
    {
      && call in calls && calls[call].organization == organization && calls[call].agent == Some(agent)
      && (calls[call].status == Answered || calls[call].status == Active) && calls[call].endedAt.None?
      && agent in agents && organization in organizations
    }

    /** `CreateVoiceAgentSession`. */
    method CreateSession(id: nat, organization: nat, call: nat, agent: nat) returns (error: Option<AttachError>)
      requires Valid() && id !in sessions
      modifies this`sessions, this`history
      ensures Valid() && Did(Create(id, organization, call, agent))
      ensures error.None? <==>
                old(Joinable(organization, call, agent)) && forall other <- old(sessions) ::
                  old(sessions)[other].call == call ==> old(sessions)[other].status != Active
      ensures error.None? ==>
                sessions == old(sessions)[id := Session(organization, call, agent, Active, Summary(0, 0, None, None),
                                                        now, None, None, None)]
      ensures error.None? ==> ActiveFor(Tables(), organization, call, id)
      ensures error.Some? ==> sessions == old(sessions)
      ensures error.Some? ==>
                error.value == if old(Joinable(organization, call, agent)) then AttachError.Conflict else NotFound
      ensures error == Some(AttachError.Conflict) ==> Occupied(Tables(), call)
    {
      if !MayOpen(Tables(), organization, call, agent) {
        error := Some(NotFound);
      } else if other :| other in sessions && sessions[other].call == call && sessions[other].status.Active? {
        error := Some(Conflict);
      } else {
        sessions := sessions[id := Session(organization, call, agent, Active, NO_SUMMARY, now, None, None, None)];
        error := None;
      }
      history := history + [Create(id, organization, call, agent)];
      Extends(Create(id, organization, call, agent));
    }

    /** `MarkVoiceAgentMediaStarted`. */
    method StartMedia(organization: nat, id: nat) returns (found: bool)
      requires Valid()
      modifies this`sessions, this`history
      ensures Valid() && Did(MediaStart(organization, id))
      ensures found <==>
                && id in old(sessions) && old(sessions)[id].organization == organization
                && old(sessions)[id].status == Active
      ensures found ==> id in sessions && sessions[id].mediaStartedAt.Some?
      ensures !found ==> sessions == old(sessions)
    {
      found := Open(Tables(), organization, id);
      if found {
        var x := sessions[id];
        if x.mediaStartedAt.None? {
          x := x.(mediaStartedAt := Some(if now > x.startedAt then now else x.startedAt));
        }
        sessions := sessions[id := x];
      }
      history := history + [MediaStart(organization, id)];
      Extends(MediaStart(organization, id));
    }

    /** `CompleteVoiceAgentSession`. */
    method FinishSession(organization: nat, id: nat, status: Status, summary: Summary, at: int)
      returns (found: bool)
      requires Valid()
      modifies this`sessions, this`history
      ensures Valid() && Did(Finish(organization, id, status, summary, at))
      ensures found ==> id in sessions && sessions[id].status == status && sessions[id].summary == summary
      ensures found <==>
                && CallOutcomes.Ended(status) && id in old(sessions)
                && old(sessions)[id].organization == organization && old(sessions)[id].status == Active
      ensures found ==>
                var x := old(sessions)[id];
                && sessions[id].endedAt == Some(Max(x.startedAt, at))
                && sessions[id].mediaEndedAt == if x.mediaStartedAt.None? then None
                                                else Some(Max(x.mediaStartedAt.value, at))
      ensures !found ==> sessions == old(sessions)
    {
      Reachable();
      found := status.Terminal() && Open(Tables(), organization, id);
      if found {
        var x := sessions[id];
        var end := Max(x.startedAt, at);
        var mediaEnd: Option<int> := None;
        if x.mediaStartedAt.Some? {
          mediaEnd := Some(Max(x.mediaStartedAt.value, Min(Coalesce(x.mediaEndedAt, at), end)));
        }
        sessions := sessions[id := x.(status := status, summary := summary, endedAt := Some(end),
                                      mediaEndedAt := mediaEnd)];
      }
      history := history + [Finish(organization, id, status, summary, at)];
      Extends(Finish(organization, id, status, summary, at));
    }

    /** `ReconcileTerminatedVoiceAgentSessions`: afterwards no session is active on
        a terminal call that has an end. */
    method ReconcileSessions()
      requires Valid()
      modifies this`sessions, this`history
      ensures Valid() && Did(Reconcile)
      ensures forall id <- sessions ::
                var call := sessions[id].call;
                call in calls && CallOutcomes.Ended(calls[call].status) && calls[call].endedAt.Some? ==>
                  sessions[id].status != Active
    {
      Reachable();
      var t := Tables();
      sessions := map id | id in sessions ::
        if Orphan(t, sessions[id]) then Reconciled(sessions[id], calls[sessions[id].call]) else sessions[id];
      history := history + [Reconcile];
      Extends(Reconcile);
    }

    /** Everything the other actors do before this one's next statement. */
    method Others(events: seq<Event>)
      requires Valid()
      modifies this
      ensures Valid() && history == old(history) + events
      ensures Tables() == Run(old(Tables()), events)
      ensures events == [] ==> Tables() == old(Tables())
    {
      RunConcat(Initial(epoch), history, events);
      var next := Run(Tables(), events);
      now, calls, sessions := next.now, next.calls, next.sessions;
      organizations, agents := next.organizations, next.agents;
      history := history + events;
    }

    /** An active session of this call and this organization. */
    predicate IsSession(id: nat, organization: nat, call: nat)
      reads this
    {
      id in sessions && sessions[id].organization == organization && sessions[id].call == call
      && sessions[id].status == Active
    }

    /** `GetActiveByCall`. */
    method FindActive(organization: nat, call: nat) returns (found: Option<nat>)
      ensures found.Some? ==> ActiveFor(Tables(), organization, call, found.value) && organization in organizations
      ensures found.Some? ==> IsSession(found.value, organization, call)
      ensures found.None? ==>
                organization !in organizations || forall id :: !ActiveFor(Tables(), organization, call, id)
    {
      found := None;
      if organization in organizations {
        if id :| id in sessions && ActiveFor(Tables(), organization, call, id) {
          found := Some(id);
        }
      }
    }

    /** At some instant from `since` events on, the session was active for the call. */
    ghost predicate WasActive(since: nat, organization: nat, call: nat, id: nat)
      reads this
    {
      exists n | since <= n <= |history| :: ActiveAfter(n, organization, call, id)
    }

    ghost predicate ActiveAfter(n: nat, organization: nat, call: nat, id: nat)
      requires n <= |history|
      reads this
    {
      ActiveFor(Run(Initial(epoch), history[..n]), organization, call, id)
    }

    lemma ActiveNow(since: nat, organization: nat, call: nat, id: nat)
      requires Valid() && since <= |history| && ActiveFor(Tables(), organization, call, id)
      ensures WasActive(since, organization, call, id)
    {
      assert history[..|history|] == history;
      assert ActiveAfter(|history|, organization, call, id);
    }

    /** What `AttachCall` comes to when nobody interferes: the call's active session, or a
        new one where the agent may join the call and the allowance admits it; no session
        where agent or organization is inactive. */
    twostate predicate AttachedAs(organization: nat, call: nat, agent: nat, id: nat, allowed: bool, r: Attachment)
      reads this
    {
      if organization == NIL || call == NIL then r == Failure(BadRequest)
      else if agent == NIL then r == NotAttached
      else if organization !in old(organizations) then r == NotAttached
      else if exists x <- old(sessions) :: old(ActiveFor(Tables(), organization, call, x)) then
        r.Attached? && old(ActiveFor(Tables(), organization, call, r.id)) && sessions == old(sessions)
      else if agent !in old(agents) then r == NotAttached
      else if !allowed then r == Failure(Refused)
      else if old(Joinable(organization, call, agent)) then
        && r == Attached(id)
        && sessions == old(sessions)[id := Session(organization, call, agent, Active, Summary(0, 0, None, None), now,
                                                   None, None, None)]
      else r == Failure(NotFound)
    }

    /** A session that stands in the way of one that may join is the call's active one. */
    lemma OccupiedIsActive(organization: nat, call: nat, agent: nat)
      requires Valid() && Joinable(organization, call, agent) && Occupied(Tables(), call)
      ensures organization in organizations && exists x :: ActiveFor(Tables(), organization, call, x)
    {
      Reachable();
      var x :| x in sessions && sessions[x].call == call && sessions[x].status.Active?;
      assert ActiveFor(Tables(), organization, call, x);
    }

    /** The insert, and the second read on a conflict. It ends without a session only where
        the agent may not join the call, or where others have ended what was in its way. */
    method CreateOrFind(organization: nat, call: nat, agent: nat, id: nat, others: seq<Event>)
      returns (r: Attachment)
      requires Valid() && id !in sessions
      modifies this
      ensures Valid() && old(history) <= history
      ensures r.Attached? ==> WasActive(|old(history)|, organization, call, r.id)
      ensures r.Attached? ==> IsSession(r.id, organization, call)
      ensures r.Attached? || r == Failure(NotFound)
      ensures others == [] && r == Failure(NotFound) ==> !Joinable(organization, call, agent)
      ensures others == [] && (forall x :: !ActiveFor(old(Tables()), organization, call, x)) ==>
                if old(Joinable(organization, call, agent)) then
                  && r == Attached(id)
                  && sessions == old(sessions)[id := Session(organization, call, agent, Active,
                                                             Summary(0, 0, None, None), now, None, None, None)]
                else r == Failure(NotFound)
    {
      var error := CreateSession(id, organization, call, agent);
      if error.None? {
        ActiveNow(|old(history)|, organization, call, id);
        return Attached(id);
      }
      if !error.value.Conflict? {
        return Failure(error.value);
      }
      OccupiedIsActive(organization, call, agent);
      Others(others);
      var active := FindActive(organization, call);
      if active.None? {
        return Failure(NotFound);
      }
      ActiveNow(|old(history)|, organization, call, active.value);
      r := Attached(active.value);
    }

    /** `AttachCall`: read, check, create, and on a conflict read again. Whatever it
        returns was an active session of this call, of this organization, at some
        instant while it ran; left alone it comes to what `AttachedAs` says. Without a
        session it has seen the reason: nothing was asked for, agent or organization is
        inactive, the allowance refuses, or the agent may not join. `allowed` is the answer
        of the runtime allowance; without it only a session that was there is returned. */
    method AttachCall(organization: nat, call: nat, agent: nat, id: nat, allowed: bool, env: nat -> seq<Event>)
      returns (r: Attachment)
      requires Valid()
      modifies this
      ensures Valid() && old(history) <= history
      ensures r.Attached? ==> WasActive(|old(history)|, organization, call, r.id)
      ensures r.Attached? ==> IsSession(r.id, organization, call)
      ensures r.Attached? && !allowed ==> ActiveFor(old(Tables()), organization, call, r.id)
      ensures r.NotAttached? ==> agent == NIL || agent !in agents || organization !in organizations
      ensures r == Failure(BadRequest) <==> organization == NIL || call == NIL
      ensures r == Failure(Refused) ==> !allowed || id in sessions
      ensures r != Failure(Conflict)
      ensures env(2) == [] && r == Failure(NotFound) ==> !Joinable(organization, call, agent)
      ensures Quiet(env) && id !in old(sessions) ==> AttachedAs(organization, call, agent, id, allowed, r)
    {
      if organization == NIL || call == NIL {
        return Failure(BadRequest);
      }
      if agent == NIL {
        return NotAttached;
      }
      var active := FindActive(organization, call);
      if active.Some? {
        ActiveNow(|old(history)|, organization, call, active.value);
        return Attached(active.value);
      }
      Others(env(0));
      if agent !in agents || organization !in organizations {
        return NotAttached;
      }
      if !allowed {
        return Failure(Refused);
      }
      Others(env(1));
      if id in sessions {
        // The database generates ids: a duplicate would fail the statement.
        return Failure(Refused);
      }
      r := CreateOrFind(organization, call, agent, id, env(2));
    }

    /** `CompleteCall`: close the call's active session with the counters it has. */
    method CompleteCall(organization: nat, call: nat, status: Status, endedAt: int, env: seq<Event>)
      returns (completed: Option<nat>)
      requires Valid()
      modifies this
      ensures Valid() && old(history) <= history
      ensures completed.Some? ==>
                && old(IsSession(completed.value, organization, call))
                && completed.value in sessions && sessions[completed.value].status == status
                && sessions[completed.value].summary == old(sessions[completed.value].summary)
                && !ActiveFor(Tables(), organization, call, completed.value)
                && sessions[completed.value].endedAt
                   == Some(Max(old(sessions)[completed.value].startedAt, endedAt))
      ensures env == [] ==>
                (completed.Some? <==>
                   && CallOutcomes.Ended(status) && organization in old(organizations)
                   && exists x <- old(sessions) :: old(ActiveFor(Tables(), organization, call, x)))
    {
      var active := FindActive(organization, call);
      if active.None? {
        return None;
      }
      var summary := sessions[active.value].summary;
      Reachable();
      RunKeeps(Tables(), env);
      Others(env);
      var found := FinishSession(organization, active.value, status, summary, endedAt);
      completed := if found then active else None;
    }
  }
}
