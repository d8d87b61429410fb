/** Signed identity events, users and login sessions: the tombstone a disable event
    leaves, and the profile a newest update leaves. One step is one statement; one
    that matches no row leaves the tables as they are. */
module Identity {
  import opened Sql

  // ---------------------------------------------------------------------- tables

  datatype Subject = Subject(issuer: string, subject: string)

  datatype Signed = Signed(who: Subject, updated: bool, occurredAt: int, disable: bool)

  datatype User = User(who: Subject, name: Option<string>, email: string, disabledAt: Option<int>)

  datatype Login = Login(user: nat, expiresAt: int, lastSeenAt: Option<int>, revokedAt: Option<int>, tokens: string)

  datatype State = State(
    now: int,
    signed: map<(string, string), Signed>,
    users: map<nat, User>,
    logins: map<nat, Login>)

  datatype Step =
    | Tick(delta: nat)
    | Deliver(eventId: string, event: Signed, name: string, email: string)
    | SignIn(id: nat, who: Subject, profile: Option<string>, address: string)
    | Disable(user: nat)
    | Open(id: nat, user: nat, expiresAt: int, tokens: string)
    | Revoke(id: nat, user: nat)
    | RevokeAll(user: nat)
    | Touch(id: nat, user: nat)
    | Refresh(id: nat, tokens: string)

  function Initial(now: int): State {
    State(now, map[], map[], map[])
  }

  /** `BTRIM`: blanks off both ends. */
  function Btrim(s: string): string {
    if s != "" && s[0] == ' ' then Btrim(s[1..])
    else if s != "" && s[|s| - 1] == ' ' then Btrim(s[..|s| - 1])
    else s
  }

  // ----------------------------------------------------------------------- steps

  /** `current_event`: disabling always counts, anything else unless a later event
      of the subject was recorded before. */
  predicate Current(s: State, e: Signed) {
    e.disable || !exists k <- s.signed :: s.signed[k].who == e.who && s.signed[k].occurredAt > e.occurredAt
  }

  predicate EmailFree(s: State, id: nat, email: string) {
    forall other <- s.users :: other == id || s.users[other].email != email
  }

  /** WHERE of `changed_users`. */
  predicate Changes(u: User, e: Signed, name: string, email: string) {
    u.who == e.who
    && (e.disable || (e.updated && u.disabledAt.None? && (Btrim(name) != "" || Btrim(email) != "")))
  }

  /** SET of `changed_users`. */
  function Changed(s: State, id: nat, u: User, e: Signed, name: string, email: string): User {
    u.(name := if !e.disable && e.updated && Btrim(name) != "" then Some(Btrim(name)) else u.name,
       disabledAt := if e.disable then Some(if u.disabledAt.Some? then u.disabledAt.value else s.now) else u.disabledAt,
       email := if !e.disable && e.updated && Btrim(email) != "" && EmailFree(s, id, email) then email else u.email)
  }

  function Revoked(l: Login, now: int): Login {
    if l.revokedAt.None? then l.(revokedAt := Some(now)) else l
  }

  /** `changed_users`. */
  function ChangedUsers(s: State, e: Signed, name: string, email: string): map<nat, User> {
    map id | id in s.users ::
      if Current(s, e) && Changes(s.users[id], e, name, email) then Changed(s, id, s.users[id], e, name, email)
      else s.users[id]
  }

  /** The users it returns as disabled. */
  function DisabledUsers(s: State, e: Signed, name: string, email: string): set<nat> {
    set id | id in s.users && Current(s, e) && Changes(s.users[id], e, name, email)
      && Changed(s, id, s.users[id], e, name, email).disabledAt.Some?
  }

  /** `revoked_sessions`. */
  function RevokedLogins(logins: map<nat, Login>, users: set<nat>, now: int): map<nat, Login> {
    map l | l in logins :: if logins[l].user in users then Revoked(logins[l], now) else logins[l]
  }

  /** `ApplyKindeIdentityEvent`: every part reads the tables as they were. */
  function NextDeliver(s: State, eventId: string, e: Signed, name: string, email: string): State {
    if (e.who.issuer, eventId) in s.signed then s
    else
      s.(signed := s.signed[(e.who.issuer, eventId) := e],
         users := ChangedUsers(s, e, name, email),
         logins := RevokedLogins(s.logins, DisabledUsers(s, e, name, email), s.now))
  }

  predicate Tombstone(s: State, who: Subject) {
    exists k <- s.signed :: s.signed[k].who == who && s.signed[k].disable
  }

  /** `UpsertIdentityUser`. An address in use elsewhere fails the statement. */
  function NextSignIn(s: State, id: nat, who: Subject, name: Option<string>, email: string): State {
    if Tombstone(s, who) then s
    else if user :| user in s.users && s.users[user].who == who
                    && forall other <- s.users :: s.users[other].who == who ==> other == user
    then
      if s.users[user].disabledAt.Some? || !EmailFree(s, user, email) then s
      else s.(users := s.users[user := s.users[user].(name := name, email := email)])
    else if id in s.users || !EmailFree(s, id, email) || exists user <- s.users :: s.users[user].who == who then s
    else s.(users := s.users[id := User(who, name, email, None)])
  }

  function Next(s: State, step: Step): State {
    match step
    case Tick(delta) => s.(now := s.now + delta)
    case Deliver(eventId, e, name, email) => NextDeliver(s, eventId, e, name, email)
    case SignIn(id, who, name, email) => NextSignIn(s, id, who, name, email)
    case Disable(user) =>
      if user in s.users && s.users[user].disabledAt.None?
      then s.(users := s.users[user := s.users[user].(disabledAt := Some(s.now))]) else s
    case Open(id, user, expiresAt, tokens) =>
      if id !in s.logins && user in s.users && s.users[user].disabledAt.None?
      then s.(logins := s.logins[id := Login(user, expiresAt, Some(s.now), None, tokens)]) else s
    case Revoke(id, user) =>
      if id in s.logins && s.logins[id].user == user
      then s.(logins := s.logins[id := Revoked(s.logins[id], s.now)]) else s
    case RevokeAll(user) =>
      s.(logins := map id | id in s.logins ::
           if s.logins[id].user == user then Revoked(s.logins[id], s.now) else s.logins[id])
    case Touch(id, user) =>
      if id in s.logins && s.logins[id].user == user && s.logins[id].expiresAt > s.now
         && s.logins[id].revokedAt.None?
         && (s.logins[id].lastSeenAt.None? || s.logins[id].lastSeenAt.value < s.now - 300 * SECOND)
      then s.(logins := s.logins[id := s.logins[id].(lastSeenAt := Some(s.now))]) else s
    case Refresh(id, tokens) =>
      if id in s.logins && s.logins[id].revokedAt.None?
      then s.(logins := s.logins[id := s.logins[id].(tokens := tokens, lastSeenAt := Some(s.now))]) else s
  }

  function Run(s: State, steps: seq<Step>): State {
    if steps == [] then s else Next(Run(s, steps[..|steps| - 1]), steps[|steps| - 1])
  }

  // ------------------------------------------------------------------ invariants

  /** A disabled identity: its users are disabled and their sessions revoked. */
  predicate Buried(s: State, who: Subject) {
    && (forall user <- s.users :: s.users[user].who == who ==> s.users[user].disabledAt.Some?)
    && (forall id <- s.logins ::
          s.logins[id].user in s.users && s.users[s.logins[id].user].who == who ==> s.logins[id].revokedAt.Some?)
  }

  ghost predicate OneUserEach(s: State) {
    forall i <- s.users, j <- s.users :: i != j ==> s.users[i].who != s.users[j].who
  }

  ghost predicate EmailsApart(s: State) {
    forall i <- s.users, j <- s.users :: i != j ==> s.users[i].email != s.users[j].email
  }

  ghost predicate Unique(s: State) {
    OneUserEach(s) && EmailsApart(s) && forall id <- s.logins :: s.logins[id].user in s.users
  }

  ghost predicate Tombstones(s: State) {
    forall k <- s.signed :: s.signed[k].disable ==> Buried(s, s.signed[k].who)
  }

  lemma DeliverKeepsUnique(s: State, eventId: string, e: Signed, name: string, email: string)
    requires Unique(s)
    ensures Unique(NextDeliver(s, eventId, e, name, email))
  {
    var t := NextDeliver(s, eventId, e, name, email);
    forall i, j | i in t.users && j in t.users && i != j
      ensures t.users[i].who != t.users[j].who && t.users[i].email != t.users[j].email
    {
      assert s.users[i].who != s.users[j].who && s.users[i].email != s.users[j].email;
      assert t.users[i].email != s.users[i].email ==> EmailFree(s, i, email) && t.users[i].email == email;
      assert t.users[j].email != s.users[j].email ==> EmailFree(s, j, email) && t.users[j].email == email;
    }
  }

  lemma SignInKeepsUnique(s: State, id: nat, who: Subject, name: Option<string>, email: string)
    requires Unique(s)
    ensures Unique(NextSignIn(s, id, who, name, email))
  {
  }

  /** The other statements leave names and addresses alone. */
  lemma OthersKeepNames(s: State, step: Step, user: nat)
    requires !step.Deliver? && !step.SignIn?
    ensures user in Next(s, step).users <==> user in s.users
    ensures user in s.users ==>
              Next(s, step).users[user].who == s.users[user].who
              && Next(s, step).users[user].name == s.users[user].name
              && Next(s, step).users[user].email == s.users[user].email
  {
  }

  lemma OthersKeepLogins(s: State, step: Step)
    requires !step.Deliver? && !step.SignIn? && forall id <- s.logins :: s.logins[id].user in s.users
    ensures forall id <- Next(s, step).logins :: Next(s, step).logins[id].user in s.users
  {
  }

  lemma OthersKeepUnique(s: State, step: Step)
    requires Unique(s) && !step.Deliver? && !step.SignIn?
    ensures Unique(Next(s, step))
  {
    var t := Next(s, step);
    OthersKeepLogins(s, step);
    forall i ensures i in t.users <==> i in s.users
    {
      OthersKeepNames(s, step, i);
    }
    forall i | i in t.users ensures t.users[i].who == s.users[i].who && t.users[i].email == s.users[i].email {
      OthersKeepNames(s, step, i);
    }
  }

  lemma StepKeepsUnique(s: State, step: Step)
    requires Unique(s)
    ensures Unique(Next(s, step))
  {
    match step
    case Deliver(eventId, e, name, email) => DeliverKeepsUnique(s, eventId, e, name, email);
    case SignIn(id, who, name, email) => SignInKeepsUnique(s, id, who, name, email);
    case _ => OthersKeepUnique(s, step);
  }

  lemma DeliverLeavesBuried(s: State, eventId: string, e: Signed, name: string, email: string, who: Subject)
    requires Unique(s) && Buried(s, who)
    ensures Buried(NextDeliver(s, eventId, e, name, email), who)
  {
  }

  /** What is buried stays buried, whatever comes next. */
  lemma StaysBuried(s: State, step: Step, k: (string, string))
    requires Unique(s) && k in s.signed && s.signed[k].disable && Buried(s, s.signed[k].who)
    ensures Buried(Next(s, step), s.signed[k].who)
  {
    assert Tombstone(s, s.signed[k].who);
    if step.Deliver? {
      DeliverLeavesBuried(s, step.eventId, step.event, step.name, step.email, s.signed[k].who);
    }
  }

  /** A disable event buries at once, in whatever state it arrives. */
  lemma DeliverBuries(s: State, eventId: string, e: Signed, name: string, email: string)
    requires Unique(s) && e.disable && (e.who.issuer, eventId) !in s.signed
    ensures Buried(NextDeliver(s, eventId, e, name, email), e.who)
  {
  }

  lemma StepKeepsTombstones(s: State, step: Step)
    requires Unique(s) && Tombstones(s)
    ensures Tombstones(Next(s, step))
  {
    var t := Next(s, step);
    forall k | k in t.signed && t.signed[k].disable ensures Buried(t, t.signed[k].who) {
      if k in s.signed {
        StaysBuried(s, step, k);
      } else {
        DeliverBuries(s, step.eventId, step.event, step.name, step.email);
      }
    }
  }

  lemma {:induction false} RunKeeps(s: State, steps: seq<Step>)
    requires Unique(s) && Tombstones(s)
    ensures Unique(Run(s, steps)) && Tombstones(Run(s, steps))
  {
    if steps != [] {
      var n := |steps| - 1;
      RunKeeps(s, steps[..n]);
      StepKeepsUnique(Run(s, steps[..n]), steps[n]);
      StepKeepsTombstones(Run(s, steps[..n]), steps[n]);
    }
  }

  /** In every order of events, sign-ins, logins and local disables: once a disable
      event is recorded, its users are disabled and all their sessions revoked. */
  lemma {:induction false} DisableWins(now: int, steps: seq<Step>, k: (string, string))
    requires k in Run(Initial(now), steps).signed && Run(Initial(now), steps).signed[k].disable
    ensures Buried(Run(Initial(now), steps), Run(Initial(now), steps).signed[k].who)
  {
    RunKeeps(Initial(now), steps);
  }

  lemma SignedStays(s: State, step: Step, k: (string, string))
    requires k in s.signed
    ensures k in Next(s, step).signed && Next(s, step).signed[k] == s.signed[k]
  {
  }

  predicate LoginOf(s: State, id: nat, who: Subject) {
    id in s.logins && s.logins[id].user in s.users && s.users[s.logins[id].user].who == who
  }

  lemma NoNewUser(s: State, step: Step, who: Subject, user: nat)
    requires Tombstone(s, who)
    requires user in Next(s, step).users && Next(s, step).users[user].who == who
    ensures user in s.users && s.users[user].who == who
  {
  }

  lemma NoLoginFromDeliver(s: State, step: Step, who: Subject, id: nat)
    requires step.Deliver? && Unique(s) && Buried(s, who) && LoginOf(Next(s, step), id, who)
    ensures LoginOf(s, id, who) && Next(s, step).logins[id].revokedAt == s.logins[id].revokedAt
  {
  }

  lemma NoNewLogin(s: State, step: Step, who: Subject, id: nat)
    requires Unique(s) && Tombstone(s, who) && Buried(s, who)
    requires LoginOf(Next(s, step), id, who)
    ensures LoginOf(s, id, who) && Next(s, step).logins[id].revokedAt == s.logins[id].revokedAt
  {
    if step.Deliver? {
      NoLoginFromDeliver(s, step, who, id);
    }
  }

  /** And none ever appears again: after the tombstone no user of the identity is
      created or enabled, ... */
  lemma {:induction false} NoUserComesBack(s: State, steps: seq<Step>, k: (string, string), user: nat)
    requires Unique(s) && Tombstones(s) && k in s.signed && s.signed[k].disable
    ensures var t := Run(s, steps);
            && k in t.signed && t.signed[k] == s.signed[k]
            && (user in t.users && t.users[user].who == s.signed[k].who ==>
                  user in s.users && s.users[user].who == s.signed[k].who && t.users[user].disabledAt.Some?)
  {
    RunKeeps(s, steps);
    if steps != [] {
      var n := |steps| - 1;
      var t := Run(s, steps[..n]);
      NoUserComesBack(s, steps[..n], k, user);
      SignedStays(t, steps[n], k);
      if user in Next(t, steps[n]).users && Next(t, steps[n]).users[user].who == s.signed[k].who {
        assert Tombstone(t, s.signed[k].who);
        NoNewUser(t, steps[n], s.signed[k].who, user);
      }
    }
  }

  /** ... and no session of it is opened or brought back. */
  lemma {:induction false} NoLoginComesBack(s: State, steps: seq<Step>, k: (string, string), id: nat)
    requires Unique(s) && Tombstones(s) && k in s.signed && s.signed[k].disable
    requires LoginOf(Run(s, steps), id, s.signed[k].who)
    ensures LoginOf(s, id, s.signed[k].who)
    ensures s.logins[id].revokedAt.Some? && Run(s, steps).logins[id].revokedAt == s.logins[id].revokedAt
  {
    if steps != [] {
      var n := |steps| - 1;
      var t := Run(s, steps[..n]);
      RunKeeps(s, steps[..n]);
      NoUserComesBack(s, steps[..n], k, 0);
      assert Tombstone(t, s.signed[k].who) && Buried(t, s.signed[k].who);
      NoNewLogin(t, steps[n], s.signed[k].who, id);
      NoLoginComesBack(s, steps[..n], k, id);
    }
  }

  // -------------------------------------------------------------------- profiles

  /** Steps that may come around an update of this identity: any, except that its
      events are older ones, or this one again, none disables, and it neither signs
      in nor is disabled locally. */
  predicate Around(step: Step, newest: Step, user: nat)
    requires newest.Deliver?
  {
    match step
    case Deliver(eventId, e, _, _) =>
      step == newest
      || ((e.who.issuer, eventId) != (newest.event.who.issuer, newest.eventId)
          && (e.who == newest.event.who ==> e.occurredAt < newest.event.occurredAt && !e.disable))
    case SignIn(_, who, _, _) => who != newest.event.who
    case Disable(u) => u != user
    case _ => true
  }

  /** A step that brings the address of the update to nobody else. */
  predicate SparesAddress(step: Step, newest: Step)
    requires newest.Deliver?
  {
    match step
    case Deliver(_, e, _, email) => e.who == newest.event.who || email != newest.email
    case SignIn(_, _, _, address) => address != newest.email
    case _ => true
  }

  /** The user is enabled, and has the newest profile if that was delivered; of
      the address this holds when nobody else has it (`apart`). A blank name or
      address in the update stands for none. */
  ghost predicate Following(s: State, newest: Step, user: nat, apart: bool)
    requires newest.Deliver?
  {
    var e := newest.event;
    var key := (e.who.issuer, newest.eventId);
    && user in s.users && s.users[user].who == e.who && s.users[user].disabledAt.None?
    && (forall k <- s.signed :: s.signed[k].who == e.who ==>
          s.signed[k].occurredAt < e.occurredAt || (k == key && s.signed[k] == e))
    && (apart ==> EmailFree(s, user, newest.email))
    && (key in s.signed ==>
          && s.signed[key] == e
          && (Btrim(newest.name) != "" ==> s.users[user].name == Some(Btrim(newest.name)))
          && (apart && Btrim(newest.email) != "" ==> s.users[user].email == newest.email))
  }

  lemma NewestDelivered(s: State, newest: Step, user: nat, apart: bool)
    requires newest.Deliver? && newest.event.updated && !newest.event.disable
    requires Unique(s) && Following(s, newest, user, apart)
    ensures Following(Next(s, newest), newest, user, apart)
  {
    if (newest.event.who.issuer, newest.eventId) !in s.signed {
      assert Current(s, newest.event);
      assert Next(s, newest).users == ChangedUsers(s, newest.event, newest.name, newest.email);
    }
  }

  lemma OtherDelivered(s: State, step: Step, newest: Step, user: nat, apart: bool)
    requires newest.Deliver? && step.Deliver? && step != newest
    requires Unique(s) && Following(s, newest, user, apart) && Around(step, newest, user)
    requires apart ==> SparesAddress(step, newest)
    ensures Following(Next(s, step), newest, user, apart)
  {
    var t := Next(s, step);
    var key := (newest.event.who.issuer, newest.eventId);
    assert key in t.signed <==> key in s.signed;
    if key in s.signed && step.event.who == newest.event.who {
      assert !Current(s, step.event);
    }
    assert t.users[user].disabledAt.None? && t.users[user].who == s.users[user].who;
  }

  lemma OthersFollow(s: State, step: Step, newest: Step, user: nat, apart: bool)
    requires newest.Deliver? && !step.Deliver? && !step.SignIn?
    requires Following(s, newest, user, apart) && Around(step, newest, user)
    ensures Following(Next(s, step), newest, user, apart)
  {
    forall other ensures other in Next(s, step).users <==> other in s.users {
      OthersKeepNames(s, step, other);
    }
    forall other | other in s.users ensures Next(s, step).users[other].email == s.users[other].email {
      OthersKeepNames(s, step, other);
    }
  }

  lemma StepFollows(s: State, step: Step, newest: Step, user: nat, apart: bool)
    requires newest.Deliver? && newest.event.updated && !newest.event.disable
    requires Unique(s) && Following(s, newest, user, apart) && Around(step, newest, user)
    requires apart ==> SparesAddress(step, newest)
    ensures Following(Next(s, step), newest, user, apart)
  {
    if step == newest {
      NewestDelivered(s, newest, user, apart);
    } else if step.Deliver? {
      OtherDelivered(s, step, newest, user, apart);
    } else if !step.SignIn? {
      OthersFollow(s, step, newest, user, apart);
    }
  }

  /** The newest profile wins in every order of delivery, with any repetitions and
      anything happening to others: the user ends with its name, and with its
      address if nobody else has or is brought that address. */
  lemma {:induction false} NewestProfileWins(s: State, steps: seq<Step>, newest: Step, user: nat, apart: bool)
    requires newest.Deliver? && newest.event.updated && !newest.event.disable
    requires Unique(s) && Following(s, newest, user, apart)
    requires forall step <- steps :: Around(step, newest, user)
    requires apart ==> forall step <- steps :: SparesAddress(step, newest)
    ensures Following(Run(s, steps), newest, user, apart) && Unique(Run(s, steps))
    ensures newest in steps && Btrim(newest.name) != "" ==>
              Run(s, steps).users[user].name == Some(Btrim(newest.name))
    ensures newest in steps && Btrim(newest.email) != "" && apart ==>
              Run(s, steps).users[user].email == newest.email
  {
    if steps != [] {
      var n := |steps| - 1;
      assert steps[n] in steps && forall step <- steps[..n] :: step in steps;
      NewestProfileWins(s, steps[..n], newest, user, apart);
      var t := Run(s, steps[..n]);
      StepFollows(t, steps[n], newest, user, apart);
      StepKeepsUnique(t, steps[n]);
      if newest in steps {
        NewestRecorded(s, steps, newest);
      }
    }
  }

  lemma {:induction false} NewestRecorded(s: State, steps: seq<Step>, newest: Step)
    requires newest.Deliver? && newest in steps
    ensures (newest.event.who.issuer, newest.eventId) in Run(s, steps).signed
  {
    var n := |steps| - 1;
    var t := Run(s, steps[..n]);
    if steps[n] != newest {
      assert newest in steps[..n];
      NewestRecorded(s, steps[..n], newest);
      SignedStays(t, steps[n], (newest.event.who.issuer, newest.eventId));
    }
  }

  // ---------------------------------------------------------------------- tables

  class Store {
    const epoch: int
    var now: int
    var signed: map<(string, string), Signed>
    var users: map<nat, User>
    var logins: map<nat, Login>
    ghost var history: seq<Step>

    function Tables(): State
      reads this
    {
      State(now, signed, users, logins)
    }

    /** The tables are in the state to which the history leads. */
    ghost predicate Valid()
      reads this
    {
      Tables() == Run(Initial(epoch), history)
    }

    twostate predicate Did(step: Step)
      reads this
    {
      history == old(history) + [step] && Tables() == Next(old(Tables()), step)
    }

    constructor (epoch: int)
      ensures Valid() && Tables() == Initial(epoch) && history == []
    {
      this.epoch, now := epoch, epoch;
      signed, users, logins := map[], map[], map[];
      history := [];
    }

    twostate lemma Extends(step: Step)
      requires old(Valid()) && Did(step)
      ensures Valid()
    {
      assert history[..|history| - 1] == old(history);
    }

    lemma Reachable()
      requires Valid()
      ensures Unique(Tables()) && Tombstones(Tables())
    {
      RunKeeps(Initial(epoch), history);
    }

    lemma BuriedNow(k: (string, string))
      requires Valid() && k in signed && signed[k].disable
      ensures Buried(Tables(), signed[k].who)
    {
      Reachable();
    }

    /** `ApplyKindeIdentityEvent`: record, then change users, then revoke. A disable
        event acknowledged leaves nobody of the identity enabled or signed in. */
    method Apply(eventId: string, e: Signed, name: string, email: string) returns (recorded: bool)
      requires Valid()
      modifies this
      ensures Valid() && Did(Deliver(eventId, e, name, email))
      ensures recorded <==> (e.who.issuer, eventId) !in old(signed)
      ensures recorded && e.disable ==> Buried(Tables(), e.who)
    {
      recorded := (e.who.issuer, eventId) !in signed;
      if recorded {
        RecordAndChange(eventId, e, name, email);
      }
      history := history + [Deliver(eventId, e, name, email)];
      Extends(Deliver(eventId, e, name, email));
      if recorded && e.disable {
        BuriedNow((e.who.issuer, eventId));
      }
    }

    method RecordAndChange(eventId: string, e: Signed, name: string, email: string)
      requires (e.who.issuer, eventId) !in signed
      modifies this`signed, this`users, this`logins
      ensures Tables() == NextDeliver(old(Tables()), eventId, e, name, email)
    {
      var before := Tables();
      var disabled: set<nat> := {};
      if Current(before, e) {
        disabled := DisabledUsers(before, e, name, email);
        users := ChangedUsers(before, e, name, email);
      } else {
        assert ChangedUsers(before, e, name, email) == users;
        assert DisabledUsers(before, e, name, email) == {};
      }
      signed := signed[(e.who.issuer, eventId) := e];
      logins := RevokedLogins(logins, disabled, now);
    }

    /** The identity's user is enabled, or new, and nobody else has the address. */
    static ghost predicate Welcome(users: map<nat, User>, id: nat, who: Subject, email: string) {
      if exists known <- users :: users[known].who == who then
        exists known <- users :: users[known].who == who && users[known].disabledAt.None?
          && forall other <- users :: users[other].email == email ==> other == known
      else
        id !in users && forall other <- users :: users[other].email != email
    }

    /** Its insert, or the update of the user on conflict. */
    method PutUser(id: nat, who: Subject, name: Option<string>, email: string) returns (user: Option<nat>)
      requires Unique(Tables()) && !Tombstone(Tables(), who) && id !in users
      modifies this`users
      ensures Tables() == NextSignIn(old(Tables()), id, who, name, email)
      ensures user.Some? <==> Welcome(old(users), id, who, email)
      ensures if user.Some? then user.value in users && users[user.value] == User(who, name, email, None)
              else users == old(users)
    {
      user := None;
      if known :| known in users && users[known].who == who {
        if users[known].disabledAt.None? && EmailFree(Tables(), known, email) {
          users := users[known := users[known].(name := name, email := email)];
          user := Some(known);
        }
      } else if EmailFree(Tables(), id, email) {
        users := users[id := User(who, name, email, None)];
        user := Some(id);
      }
    }

    /** `UpsertIdentityUser`: no user comes out of it for a buried identity. */
    method UpsertUser(id: nat, who: Subject, name: Option<string>, email: string) returns (user: Option<nat>)
      requires Valid() && id !in users
      modifies this`users, this`history
      ensures Valid() && Did(SignIn(id, who, name, email))
      ensures user.Some? ==>
                && !Tombstone(Tables(), who) && user.value in users
                && users[user.value] == User(who, name, email, None)
      ensures user.None? ==> users == old(users)
      ensures user.Some? <==> !Tombstone(Tables(), who) && Welcome(old(users), id, who, email)
    {
      Reachable();
      user := None;
      if forall k <- signed :: !(signed[k].who == who && signed[k].disable) {
        user := PutUser(id, who, name, email);
      }
      history := history + [SignIn(id, who, name, email)];
      Extends(SignIn(id, who, name, email));
    }

    /** `DisableUser`. */
    method DisableUser(user: nat)
      requires Valid()
      modifies this`users, this`history
      ensures Valid() && Did(Disable(user))
      ensures user in users ==> users[user].disabledAt.Some?
    {
      if user in users && users[user].disabledAt.None? {
        users := users[user := users[user].(disabledAt := Some(now))];
      }
      history := history + [Disable(user)];
      Extends(Disable(user));
    }

    /** `CreateSession`: only for an enabled user. */
    method CreateSession(id: nat, user: nat, expiresAt: int, tokens: string) returns (created: bool)
      requires Valid() && id !in logins
      modifies this`logins, this`history
      ensures Valid() && Did(Open(id, user, expiresAt, tokens))
      ensures created <==> user in users && users[user].disabledAt.None?
      ensures created ==> !Tombstone(Tables(), users[user].who)
      ensures logins ==
              if created then old(logins)[id := Login(user, expiresAt, Some(now), None, tokens)] else old(logins)
    {
      Reachable();
      created := user in users && users[user].disabledAt.None?;
      if created {
        logins := logins[id := Login(user, expiresAt, Some(now), None, tokens)];
      }
      history := history + [Open(id, user, expiresAt, tokens)];
      Extends(Open(id, user, expiresAt, tokens));
    }

    /** `RevokeUserSessions`. */
    method RevokeUserSessions(user: nat)
      requires Valid()
      modifies this`logins, this`history
      ensures Valid() && Did(RevokeAll(user))
      ensures forall id <- logins :: logins[id].user == user ==> logins[id].revokedAt.Some?
    {
      logins := map id | id in logins ::
        if logins[id].user == user && logins[id].revokedAt.None?
        then logins[id].(revokedAt := Some(now)) else logins[id];
      history := history + [RevokeAll(user)];
      Extends(RevokeAll(user));
    }
  }
}
