/** Whose audio is metered, and how much of it: the sum, one session at a time. */
module MeteringScope {
  import opened Sql
  import opened Sessions
  import opened Metering

  /** The states hold the same sessions and calls of this organization. */
  predicate SameFor(s: State, t: State, organization: nat) {
    && (forall id <- s.sessions :: s.sessions[id].organization == organization ==>
          id in t.sessions && t.sessions[id] == s.sessions[id])
    && (forall id <- t.sessions :: t.sessions[id].organization == organization ==>
          id in s.sessions && s.sessions[id] == t.sessions[id])
    && (forall id <- s.calls :: s.calls[id].organization == organization ==>
          id in t.calls && t.calls[id] == s.calls[id])
    && (forall id <- t.calls :: t.calls[id].organization == organization ==>
          id in s.calls && s.calls[id] == t.calls[id])
  }

  /** What other organizations do is never charged: the used seconds depend on the
      organization's own sessions and calls and on the clock alone. */
  lemma OthersAreNotCharged(s: State, t: State, organization: nat, low: int, high: int)
    requires SameFor(s, t, organization) && s.now == t.now
    ensures UsedSeconds(s, organization, low, high) == UsedSeconds(t, organization, low, high)
  {
    FilterChangesNothing(s, organization, low, high);
    FilterChangesNothing(t, organization, low, high);
    assert PlainSeconds(s, organization, low, high) == PlainSeconds(t, organization, low, high);
  }

  lemma NoSessionsNoSeconds(s: State, organization: nat, low: int, high: int)
    requires forall id <- s.sessions :: s.sessions[id].organization != organization
    ensures UsedSeconds(s, organization, low, high) == 0
  {
    FilterChangesNothing(s, organization, low, high);
    assert PlainSeconds(s, organization, low, high) == map[];
  }

  /** The seconds of one session's audio in a period: from its confirmed start to the
      end of its audio, or else of its call, or else to now, clipped to the period, any
      part of a second counting whole. */
  predicate Charge(x: Session, c: Call, low: int, high: int, now: int, seconds: int) {
    if x.mediaStartedAt.None? then seconds == 0
    else
      var end := if x.mediaEndedAt.Some? then x.mediaEndedAt.value
                 else if c.endedAt.Some? then c.endedAt.value else now;
      var until := if end < high then end else high;
      var from := if x.mediaStartedAt.value > low then x.mediaStartedAt.value else low;
      if until <= from then seconds == 0
      else (seconds - 1) * SECOND < until - from <= seconds * SECOND
  }

  /** One more session of the organization, on a call of the organization, adds exactly
      its own seconds; any other adds nothing. */
  lemma OneMoreSession(s: State, id: nat, x: Session, organization: nat, low: int, high: int)
    returns (seconds: int)
    requires id !in s.sessions
    ensures UsedSeconds(s.(sessions := s.sessions[id := x]), organization, low, high)
            == UsedSeconds(s, organization, low, high) + seconds
    ensures if x.organization == organization && x.call in s.calls && s.calls[x.call].organization == organization
            then Charge(x, s.calls[x.call], low, high, s.now, seconds)
            else seconds == 0
  {
    var t := s.(sessions := s.sessions[id := x]);
    FilterChangesNothing(s, organization, low, high);
    FilterChangesNothing(t, organization, low, high);
    var a, b := PlainSeconds(s, organization, low, high), PlainSeconds(t, organization, low, high);
    PlainOneMore(s, id, x, organization, low, high);
    if Joined(t, organization, id) {
      seconds := SecondsOf(t, organization, id, low, high);
      SumTakes(b, id);
      ChargeIs(x, s.calls[x.call], low, high, s.now);
    } else {
      seconds := 0;
    }
  }

  lemma PlainOneMore(s: State, id: nat, x: Session, organization: nat, low: int, high: int)
    requires id !in s.sessions
    ensures var t := s.(sessions := s.sessions[id := x]);
            var a, b := PlainSeconds(s, organization, low, high), PlainSeconds(t, organization, low, high);
            if Joined(t, organization, id)
            then id in b && b[id] == SecondsOf(t, organization, id, low, high) && b - {id} == a
            else b == a
  {
    var t := s.(sessions := s.sessions[id := x]);
    var a, b := PlainSeconds(s, organization, low, high), PlainSeconds(t, organization, low, high);
    forall k | k != id ensures k in a <==> k in b {
    }
    forall k | k in a ensures a[k] == b[k] {
    }
  }

  lemma ChargeIs(x: Session, c: Call, low: int, high: int, now: int)
    ensures Charge(x, c, low, high, now, Seconds(x, c, low, high, now))
  {
    if x.mediaStartedAt.Some? {
      OverlapRoundsUp(x.mediaStartedAt.value, AudioEnd(x, c, now), low, high);
    }
  }
}
