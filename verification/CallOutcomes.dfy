/** How calls move: the graph of their states, and the event that ended each. */
module CallOutcomes {
  import opened Sql
  import opened Sessions

  /** The moves of a call: from, statement, to. */
  const MOVES: set<(Status, Mark, Status)> :=
    {(Initiating, Ring, Ringing),
     (Initiating, Answer, Answered), (Ringing, Answer, Answered),
     (Ringing, Activate, Active), (Answered, Activate, Active),
     (Initiating, Complete, Completed), (Ringing, Complete, Completed),
     (Answered, Complete, Completed), (Active, Complete, Completed),
     (Initiating, Fail, Failed), (Ringing, Fail, Failed), (Answered, Fail, Failed), (Active, Fail, Failed),
     (Initiating, Cancel, Cancelled), (Ringing, Cancel, Cancelled)}

  predicate Moves(from: Status, m: Mark, to: Status) {
    (from, m, to) in MOVES
  }

  predicate Ended(status: Status) {
    status == Completed || status == Failed || status == Cancelled
  }

  /** The statement matches the call. */
  predicate Applies(c: Call, m: Mark) {
    match m
    case Hold => (c.status == Answered || c.status == Active) && !c.held
    case Resume => (c.status == Answered || c.status == Active) && c.held
    case Bind(sip) => c.outbound && (c.sipCallId == None || c.sipCallId == Some(sip))
    case _ => exists to :: Moves(c.status, m, to)
  }

  lemma AppliesMeaning(c: Call, m: Mark)
    ensures m.Ring? ==> (Applies(c, m) <==> c.status == Initiating)
    ensures m.Answer? ==> (Applies(c, m) <==> c.status == Initiating || c.status == Ringing)
    ensures m.Activate? ==> (Applies(c, m) <==> c.status == Ringing || c.status == Answered)
    ensures m.Complete? || m.Fail? ==> (Applies(c, m) <==> !Ended(c.status))
    ensures m.Cancel? ==> (Applies(c, m) <==> c.status == Initiating || c.status == Ringing)
  {
    AllMoves();
  }

  lemma AllMoves()
    ensures Moves(Initiating, Ring, Ringing)
    ensures Moves(Initiating, Answer, Answered) && Moves(Ringing, Answer, Answered)
    ensures Moves(Ringing, Activate, Active) && Moves(Answered, Activate, Active)
    ensures Moves(Initiating, Complete, Completed) && Moves(Ringing, Complete, Completed)
    ensures Moves(Answered, Complete, Completed) && Moves(Active, Complete, Completed)
    ensures Moves(Initiating, Fail, Failed) && Moves(Ringing, Fail, Failed)
    ensures Moves(Answered, Fail, Failed) && Moves(Active, Fail, Failed)
    ensures Moves(Initiating, Cancel, Cancelled) && Moves(Ringing, Cancel, Cancelled)
  {
  }

  /** A statement that matches moves the call along the graph, dates its first answer
      and its end with now, or sets what it names; one that does not changes nothing. */
  lemma MarkedFollowsGraph(c: Call, m: Mark, now: int)
    ensures var d := Marked(c, m, now);
            if !Applies(c, m) then d == c
            else
              && (if m.Hold? || m.Resume? || m.Bind? then d.status == c.status else Moves(c.status, m, d.status))
              && d.held == (if m.Hold? then true else if m.Resume? then false else c.held)
              && d.sipCallId == (if m.Bind? then Some(m.sipCallId) else c.sipCallId)
              && d.answeredAt == (if m.Answer? && c.answeredAt.None? then Some(now) else c.answeredAt)
              && d.endedAt == (if (m.Complete? || m.Fail? || m.Cancel?) && c.endedAt.None? then Some(now)
                                else c.endedAt)
              && d.organization == c.organization && d.agent == c.agent && d.outbound == c.outbound
  {
    AppliesMeaning(c, m);
    AllMoves();
  }

  /** The statement ends a call in that state with this status. */
  predicate Names(from: Status, m: Mark, status: Status) {
    match m
    case Complete => status == Completed
    case Fail => status == Failed
    case Cancel => status == Cancelled && (from == Initiating || from == Ringing)
    case _ => false
  }

  /** The event ends the call with this status, or places it ended. */
  predicate Ends(s: State, e: Event, id: nat, status: Status) {
    match e
    case Place(i, _, _, _, placed, _) => i == id && id !in s.calls && placed == status
    case MarkCall(organization, i, m) =>
      && i == id && id in s.calls && s.calls[id].organization == organization && !Ended(s.calls[id].status)
      && Names(s.calls[id].status, m, status)
    case _ => false
  }

  lemma EndStep(s: State, e: Event, id: nat)
    requires CallsOk(s) && id in Next(s, e).calls && Ended(Next(s, e).calls[id].status)
    ensures var d := Next(s, e).calls[id];
            || (id in s.calls && Ended(s.calls[id].status) && d.status == s.calls[id].status
                && d.endedAt == s.calls[id].endedAt)
            || (Ends(s, e, id, d.status) && (e.MarkCall? ==> d.endedAt == Some(s.now)))
  {
    if e.MarkCall? && id in s.calls {
      MarkedFollowsGraph(s.calls[id], e.mark, s.now);
    }
  }

  /** In every run an ended call was ended by the one statement that names its status, as
      of the instant it was carried out, or placed so. */
  lemma {:induction false} EndHasCause(now: int, events: seq<Event>, id: nat) returns (k: nat)
    requires var s := Run(Initial(now), events); id in s.calls && Ended(s.calls[id].status)
    ensures k < |events|
    ensures var s, t := Run(Initial(now), events), Run(Initial(now), events[..k]);
            && Ends(t, events[k], id, s.calls[id].status)
            && (events[k].MarkCall? ==> s.calls[id].endedAt == Some(t.now))
  {
    var n := |events| - 1;
    var t := Run(Initial(now), events[..n]);
    RunKeeps(Initial(now), events[..n]);
    EndStep(t, events[n], id);
    if id in t.calls && Ended(t.calls[id].status) && t.calls[id].status == Run(Initial(now), events).calls[id].status
       && t.calls[id].endedAt == Run(Initial(now), events).calls[id].endedAt {
      k := EndHasCause(now, events[..n], id);
      assert events[..n][..k] == events[..k];
    } else {
      k := n;
    }
  }

  // -------------------------------------------------------------------- sessions

  /** A new session: active, of the call's organization and agent, started now, with
      nothing counted and no audio yet. */
  lemma NewSession(s: State, e: Event, id: nat)
    requires id !in s.sessions && id in Next(s, e).sessions
    ensures var x := Next(s, e).sessions[id];
            && x.call in s.calls
            && var c := s.calls[x.call];
            && c.organization == x.organization && c.agent == Some(x.agent)
            && (c.status == Answered || c.status == Active) && c.endedAt.None?
            && x.agent in s.agents && x.organization in s.organizations
            && x == Session(x.organization, x.call, x.agent, Active, Summary(0, 0, None, None), s.now, None, None, None)
            && forall other <- s.sessions :: s.sessions[other].call == x.call ==> s.sessions[other].status != Active
  {
  }

  /** What becomes of an active session in one step: its audio starts now, or it is
      completed with the given status, counters and instant, or, its call being over, it
      is closed with the call's. Instants never precede the start they belong to. */
  lemma SessionMoves(s: State, e: Event, id: nat)
    requires Inv(s) && id in s.sessions && s.sessions[id].status == Active
    requires id in Next(s, e).sessions && Next(s, e).sessions[id] != s.sessions[id]
    ensures var x, y := s.sessions[id], Next(s, e).sessions[id];
            match e
            case MediaStart(organization, i) =>
              && i == id && organization == x.organization && x.mediaStartedAt.None?
              && y == x.(mediaStartedAt := Some(Max(x.startedAt, s.now)))
            case Finish(organization, i, status, summary, at) =>
              && i == id && organization == x.organization && Ended(status)
              && y == x.(status := status, summary := summary, endedAt := Some(Max(x.startedAt, at)),
                         mediaEndedAt := if x.mediaStartedAt.None? then None
                                         else Some(Max(x.mediaStartedAt.value, at)))
            case Reconcile =>
              && x.call in s.calls && s.calls[x.call].endedAt.Some? && Ended(s.calls[x.call].status)
              && var end := s.calls[x.call].endedAt.value;
              y == x.(status := s.calls[x.call].status, endedAt := Some(Max(x.startedAt, end)),
                      mediaEndedAt := if x.mediaStartedAt.None? then None
                                      else Some(Max(x.mediaStartedAt.value, end)))
            case _ => false
  {
    assert Ordered(s.sessions[id]);
  }
}
