/** What may become of users and login sessions over any run: nothing happens to them
    without a step of their own, and what has ended never changes again. */
module IdentityOutcomes {
  import opened Sql
  import opened Identity

  /** The blanks are gone from both ends, and nothing else is. */
  lemma {:induction false} BtrimMeaning(s: string) returns (before: nat, after: nat)
    ensures before + |Btrim(s)| + after == |s| && Btrim(s) == s[before..before + |Btrim(s)|]
    ensures forall i | 0 <= i < before || |s| - after <= i < |s| :: s[i] == ' '
    ensures Btrim(s) != "" ==> Btrim(s)[0] != ' ' && Btrim(s)[|Btrim(s)| - 1] != ' '
    decreases |s|
  {
    if s != "" && s[0] == ' ' {
      var b, a := BtrimMeaning(s[1..]);
      assert forall i | 0 < i < |s| :: s[i] == s[1..][i - 1];
      return b + 1, a;
    } else if s != "" && s[|s| - 1] == ' ' {
      var b, a := BtrimMeaning(s[..|s| - 1]);
      return b, a + 1;
    }
    return 0, 0;
  }

  // ------------------------------------------------------------------------ ends

  /** A disabled user stays as it was when it was disabled, ... */
  lemma {:induction false} DisabledStays(s: State, steps: seq<Step>, user: nat)
    requires user in s.users && s.users[user].disabledAt.Some? && OneUserEach(s)
    ensures user in Run(s, steps).users && Run(s, steps).users[user] == s.users[user]
    ensures OneUserEach(Run(s, steps))
  {
    if steps != [] {
      var n := |steps| - 1;
      DisabledStays(s, steps[..n], user);
      OneUserStays(Run(s, steps[..n]), steps[n]);
      DisabledStep(Run(s, steps[..n]), steps[n], user);
    }
  }

  lemma DisabledStep(s: State, step: Step, user: nat)
    requires user in s.users && s.users[user].disabledAt.Some?
    ensures user in Next(s, step).users && Next(s, step).users[user] == s.users[user]
  {
  }

  lemma OneUserStays(s: State, step: Step)
    requires OneUserEach(s)
    ensures OneUserEach(Next(s, step))
  {
    if !step.Deliver? && !step.SignIn? {
      forall user ensures user in Next(s, step).users <==> user in s.users {
        OthersKeepNames(s, step, user);
      }
      forall user | user in s.users ensures Next(s, step).users[user].who == s.users[user].who {
        OthersKeepNames(s, step, user);
      }
    }
  }

  lemma LoginStays(s: State, step: Step, id: nat)
    requires id in s.logins && s.logins[id].revokedAt.Some?
    ensures id in Next(s, step).logins && Next(s, step).logins[id] == s.logins[id]
  {
  }

  /** ... and so does a revoked session. */
  lemma {:induction false} RevokedStays(s: State, steps: seq<Step>, id: nat)
    requires id in s.logins && s.logins[id].revokedAt.Some?
    ensures id in Run(s, steps).logins && Run(s, steps).logins[id] == s.logins[id]
  {
    if steps != [] {
      var n := |steps| - 1;
      RevokedStays(s, steps[..n], id);
      LoginStays(Run(s, steps[..n]), steps[n], id);
    }
  }

  /** The session has not been marked as seen for five minutes, and has not expired. */
  predicate Unseen(login: Login, now: int) {
    now < login.expiresAt && (login.lastSeenAt.Some? ==> login.lastSeenAt.value + 300 * SECOND < now)
  }

  /** What a step does to a session that is not revoked: a logout ends it, a request marks
      it as seen unless that happened within five minutes, a refresh gives it other tokens;
      no other step than those and an event that disables its user touches it. */
  lemma LoginChanges(s: State, step: Step, id: nat)
    requires id in s.logins && s.logins[id].revokedAt.None?
    ensures id in Next(s, step).logins
    ensures var x, y := s.logins[id], Next(s, step).logins[id];
            match step
            case Revoke(i, user) => y == if i == id && user == x.user then x.(revokedAt := Some(s.now)) else x
            case RevokeAll(user) => y == if user == x.user then x.(revokedAt := Some(s.now)) else x
            case Touch(i, user) =>
              y == if i == id && user == x.user && Unseen(x, s.now) then x.(lastSeenAt := Some(s.now)) else x
            case Refresh(i, tokens) =>
              y == if i == id then x.(tokens := tokens, lastSeenAt := Some(s.now)) else x
            case Deliver(eventId, e, _, _) =>
              y == if (e.who.issuer, eventId) !in s.signed && e.disable
                      && x.user in s.users && s.users[x.user].who == e.who
                   then x.(revokedAt := Some(s.now)) else x
            case _ => y == x
  {
  }

  // ---------------------------------------------------------------------- causes

  /** A step meant for this user: its own local disable or an event that disables. */
  predicate Disables(step: Step, user: nat, who: Subject) {
    || (step.Disable? && step.user == user)
    || (step.Deliver? && step.event.who == who && step.event.disable)
  }

  /** A user that is disabled now and was not before has been disabled by one. */
  lemma {:induction false} DisabledHasCause(s: State, steps: seq<Step>, user: nat) returns (k: nat)
    requires user in Run(s, steps).users && Run(s, steps).users[user].disabledAt.Some?
    requires user in s.users ==> s.users[user].disabledAt.None?
    ensures k < |steps| && Disables(steps[k], user, Run(s, steps).users[user].who)
    ensures Run(s, steps).users[user].disabledAt == Some(Run(s, steps[..k]).now)
  {
    var n := |steps| - 1;
    var t := Run(s, steps[..n]);
    if user in t.users && t.users[user].disabledAt.Some? {
      k := DisabledHasCause(s, steps[..n], user);
      DisabledStep(t, steps[n], user);
      assert steps[..n][..k] == steps[..k];
    } else {
      k := n;
    }
  }

  /** A step that ends this session: its own logout, one of all its user's sessions, or
      an event that disables the user. */
  predicate EndsLogin(step: Step, id: nat, login: Login, users: map<nat, User>) {
    || (step.Revoke? && step.id == id && step.user == login.user)
    || (step.RevokeAll? && step.user == login.user)
    || (step.Deliver? && login.user in users && step.event.who == users[login.user].who
        && step.event.disable)
  }

  lemma RevokedStep(s: State, step: Step, id: nat)
    requires id in Next(s, step).logins && Next(s, step).logins[id].revokedAt.Some?
    requires id in s.logins ==> s.logins[id].revokedAt.None?
    ensures EndsLogin(step, id, Next(s, step).logins[id], s.users)
    ensures Next(s, step).logins[id].revokedAt == Some(s.now)
  {
  }

  /** A session revoked now and not before has been ended by one of these. */
  lemma {:induction false} RevokedHasCause(s: State, steps: seq<Step>, id: nat) returns (k: nat)
    requires id in Run(s, steps).logins && Run(s, steps).logins[id].revokedAt.Some?
    requires id in s.logins ==> s.logins[id].revokedAt.None?
    ensures k < |steps| && EndsLogin(steps[k], id, Run(s, steps).logins[id], Run(s, steps[..k]).users)
    ensures Run(s, steps).logins[id].revokedAt == Some(Run(s, steps[..k]).now)
  {
    var n := |steps| - 1;
    var t := Run(s, steps[..n]);
    if id in t.logins && t.logins[id].revokedAt.Some? {
      k := RevokedHasCause(s, steps[..n], id);
      LoginStays(t, steps[n], id);
      assert steps[..n][..k] == steps[..k];
    } else {
      RevokedStep(t, steps[n], id);
      k := n;
    }
  }

  // ---------------------------------------------------------------------- events

  predicate Outdated(s: State, e: Signed) {
    exists k <- s.signed :: s.signed[k].who == e.who && s.signed[k].occurredAt > e.occurredAt
  }

  predicate Taken(s: State, user: nat, email: string) {
    exists other <- s.users :: other != user && s.users[other].email == email
  }

  /** What an event does to a user: nothing when it was recorded before or concerns
      another identity; a disabling one disables it, unless it is; an update gives an
      enabled user the name and the address it brings, unless a later event of the
      identity was recorded before or somebody else has the address. */
  lemma EventChanges(s: State, eventId: string, e: Signed, name: string, email: string, user: nat)
    requires user in s.users
    ensures var t := NextDeliver(s, eventId, e, name, email);
            && user in t.users
            && var u, v := s.users[user], t.users[user];
            if (e.who.issuer, eventId) in s.signed || u.who != e.who || u.disabledAt.Some? then v == u
            else if e.disable then v == u.(disabledAt := Some(s.now))
            else if !e.updated || Outdated(s, e) then v == u
            else
              && v.who == u.who && v.disabledAt == u.disabledAt
              && v.name == (if Btrim(name) == "" then u.name else Some(Btrim(name)))
              && v.email == (if Btrim(email) == "" || Taken(s, user, email) then u.email else email)
  {
  }

  // -------------------------------------------------------------------- profiles

  /** The name was given to this identity by a step: the profile of a sign-in, or the
      trimmed name of an event that updates. */
  predicate NameFrom(step: Step, who: Subject, name: Option<string>) {
    || (step.SignIn? && step.who == who && name == step.profile)
    || (step.Deliver? && step.event.who == who && step.event.updated && !step.event.disable
        && Btrim(step.name) != "" && name == Some(Btrim(step.name)))
  }

  predicate EmailFrom(step: Step, who: Subject, email: string) {
    || (step.SignIn? && step.who == who && email == step.address)
    || (step.Deliver? && step.event.who == who && step.event.updated && !step.event.disable
        && Btrim(step.email) != "" && email == step.email)
  }

  /** The user has the step's name and address, or those it had. */
  predicate ProfileKept(s: State, step: Step, user: nat, after: User) {
    && (NameFrom(step, after.who, after.name)
        || (user in s.users && s.users[user].who == after.who && s.users[user].name == after.name))
    && (EmailFrom(step, after.who, after.email)
        || (user in s.users && s.users[user].who == after.who && s.users[user].email == after.email))
  }

  lemma ProfileFromEvent(s: State, step: Step, user: nat)
    requires step.Deliver? && user in Next(s, step).users
    ensures ProfileKept(s, step, user, Next(s, step).users[user])
  {
  }

  lemma ProfileFromSignIn(s: State, step: Step, user: nat)
    requires step.SignIn? && user in Next(s, step).users
    ensures ProfileKept(s, step, user, Next(s, step).users[user])
  {
  }

  lemma ProfileStep(s: State, step: Step, user: nat)
    requires user in Next(s, step).users
    ensures ProfileKept(s, step, user, Next(s, step).users[user])
  {
    if step.Deliver? {
      ProfileFromEvent(s, step, user);
    } else if step.SignIn? {
      ProfileFromSignIn(s, step, user);
    } else {
      OthersKeepNames(s, step, user);
    }
  }

  /** Every name and address in the table was brought by a step of that identity: no
      event of another one ever writes a profile. */
  lemma {:induction false} ProfileHasSource(now: int, steps: seq<Step>, user: nat) returns (i: nat, j: nat)
    requires user in Run(Initial(now), steps).users
    ensures var u := Run(Initial(now), steps).users[user];
            && i < |steps| && NameFrom(steps[i], u.who, u.name)
            && j < |steps| && EmailFrom(steps[j], u.who, u.email)
  {
    var n := |steps| - 1;
    var t := Run(Initial(now), steps[..n]);
    ProfileStep(t, steps[n], user);
    i, j := n, n;
    if user in t.users {
      var a, b := ProfileHasSource(now, steps[..n], user);
      var u := Run(Initial(now), steps).users[user];
      i := if NameFrom(steps[n], u.who, u.name) then n else a;
      j := if EmailFrom(steps[n], u.who, u.email) then n else b;
    }
  }
}
