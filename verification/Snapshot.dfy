/** A session's frozen tools: freezing, the authorization checks, and resolution
    by id or name from the snapshot alone. */
module Snapshot {
  import opened Sql
  import opened Json
  import opened Text
  import opened ToolCatalog

  // ------------------------------------------------------------------ resolution

  predicate WellFormed(t: Tool) {
    t.parameters.Object? && Usable(t)
  }

  predicate Clash(a: Tool, b: Tool) {
    a.id == b.id || a.name == b.name
  }

  predicate Apart(tools: seq<Tool>) {
    forall i, j | 0 <= i < j < |tools| :: !Clash(tools[i], tools[j])
  }

  /** A request names a tool by id, by name, or by both; by neither, nothing. */
  predicate Matches(t: Tool, id: nat, name: string) {
    && (name != "" ==> t.name == name)
    && (id != NIL ==> t.id == id)
    && (id != NIL || name != "")
  }

  predicate Checked(tools: seq<Tool>) {
    (forall t <- tools :: WellFormed(t)) && Apart(tools)
  }

  predicate Sound(tools: seq<Tool>) {
    tools != [] && Checked(tools)
  }

  function LastMatch(tools: seq<Tool>, id: nat, name: string): (r: Option<Tool>)
    ensures r.Some? ==> r.value in tools && Matches(r.value, id, name)
    ensures r.None? ==> forall t <- tools :: !Matches(t, id, name)
  {
    if tools == [] then None
    else
      var n := |tools| - 1;
      assert forall t <- tools :: t == tools[n] || t in tools[..n];
      if Matches(tools[n], id, name) then Some(tools[n]) else LastMatch(tools[..n], id, name)
  }

  /** A snapshot whose `tools` are absent or do not decode is `None`. */
  function Resolve(snapshot: Option<seq<Tool>>, id: nat, name: string): Option<Tool> {
    if snapshot.Some? && Sound(snapshot.value) then LastMatch(snapshot.value, id, name) else None
  }

  /** The checks of the loop body that look at one definition only. */
  method CheckDefinition(tool: Tool) returns (ok: bool)
    ensures ok <==> WellFormed(tool)
  {
    if !tool.parameters.Object? || tool.id == NIL || Blank(tool.name) || !ValidTimeout(tool.timeout) {
      return false;
    }
    match tool.kind {
      case Builtin => ok := tool.endpoint.None?;
      case Webhook => ok := !(tool.endpoint.None? || Blank(tool.endpoint.value));
      case Unsupported => ok := false;
    }
  }

  function Ids(tools: seq<Tool>): set<nat> {
    if tools == [] then {} else Ids(tools[..|tools| - 1]) + {tools[|tools| - 1].id}
  }

  function Names(tools: seq<Tool>): set<string> {
    if tools == [] then {} else Names(tools[..|tools| - 1]) + {tools[|tools| - 1].name}
  }

  lemma {:induction false} IdsAndNames(tools: seq<Tool>, t: Tool)
    ensures t.id in Ids(tools) || t.name in Names(tools) <==> exists k | 0 <= k < |tools| :: Clash(tools[k], t)
  {
    if tools != [] {
      var n := |tools| - 1;
      IdsAndNames(tools[..n], t);
      if k :| 0 <= k < |tools| && Clash(tools[k], t) {
        assert k == n || tools[..n][k] == tools[k];
      }
      if k :| 0 <= k < n && Clash(tools[..n][k], t) {
        assert Clash(tools[k], t);
      }
    }
  }

  lemma CheckedGrows(tools: seq<Tool>, i: nat)
    requires i < |tools| && Checked(tools[..i])
    ensures var t := tools[i];
            if WellFormed(t) && t.id !in Ids(tools[..i]) && t.name !in Names(tools[..i])
            then Checked(tools[..i + 1])
            else !Checked(tools)
  {
    var t := tools[i];
    assert t in tools && tools[..i + 1] == tools[..i] + [t];
    IdsAndNames(tools[..i], t);
    if k :| 0 <= k < i && Clash(tools[..i][k], t) {
      assert Clash(tools[k], tools[i]);
    }
  }

  /** `resolveSessionTool`. */
  method ResolveSessionTool(snapshot: Option<seq<Tool>>, id: nat, name: string) returns (r: Option<Tool>)
    ensures r == Resolve(snapshot, id, name)
  {
    if snapshot.None? || snapshot.value == [] {
      return None;
    }
    var tools := snapshot.value;
    var ids: set<nat>, names: set<string> := {}, {};
    r := None;
    var i := 0;
    while i < |tools|
      invariant 0 <= i <= |tools|
      invariant ids == Ids(tools[..i]) && names == Names(tools[..i])
      invariant Checked(tools[..i])
      invariant r == LastMatch(tools[..i], id, name)
    {
      var tool := tools[i];
      CheckedGrows(tools, i);
      var ok := CheckDefinition(tool);
      if !ok || tool.id in ids || tool.name in names {
        return None;
      }
      ids, names := ids + {tool.id}, names + {tool.name};
      assert tools[..i + 1][..i] == tools[..i];
      if (name == "" || tool.name == name) && (id == NIL || tool.id == id) && (id != NIL || name != "") {
        r := Some(tool);
      }
      i := i + 1;
    }
    assert tools[..i] == tools;
  }

  /** Exactly the tool that matches in a sound snapshot, wherever it stands. */
  lemma ResolveMeaning(tools: seq<Tool>, id: nat, name: string, t: Tool)
    ensures Resolve(Some(tools), id, name) == Some(t) <==> Sound(tools) && t in tools && Matches(t, id, name)
  {
    if Sound(tools) && t in tools && Matches(t, id, name) {
      var found := LastMatch(tools, id, name).value;
      var i :| 0 <= i < |tools| && tools[i] == t;
      var j :| 0 <= j < |tools| && tools[j] == found;
      assert Clash(tools[i], tools[j]) && Clash(tools[j], tools[i]);
    }
  }

  lemma ResolveSucceeds(tools: seq<Tool>, id: nat, name: string)
    ensures Resolve(Some(tools), id, name).Some? <==> Sound(tools) && exists t <- tools :: Matches(t, id, name)
  {
    if Resolve(Some(tools), id, name).Some? {
      ResolveMeaning(tools, id, name, Resolve(Some(tools), id, name).value);
    } else if exists t <- tools :: Matches(t, id, name) {
      var t :| t in tools && Matches(t, id, name);
      ResolveMeaning(tools, id, name, t);
    }
  }

  // ------------------------------------------------------------ order of the list

  /** Something that occurs twice occurs at two places. */
  lemma {:induction false} TwoPlaces(tools: seq<Tool>, t: Tool)
    requires multiset(tools)[t] >= 2
    ensures !Apart(tools)
  {
    var n := |tools| - 1;
    assert tools == tools[..n] + [tools[n]];
    if tools[n] == t {
      assert t in multiset(tools[..n]);
      var i :| 0 <= i < n && tools[..n][i] == t;
      assert Clash(tools[i], tools[n]);
    } else {
      TwoPlaces(tools[..n], t);
      var i, j :| 0 <= i < j < n && Clash(tools[..n][i], tools[..n][j]);
      assert Clash(tools[i], tools[j]);
    }
  }

  lemma TwiceInBoth(a: seq<Tool>, b: seq<Tool>, i: nat, j: nat)
    requires multiset(a) == multiset(b) && i < j < |b| && b[i] == b[j]
    ensures multiset(a)[b[i]] >= 2
  {
    assert b == b[..j] + [b[j]] + b[j + 1..];
    assert b[j] == b[..j][i];
  }

  lemma ApartTransfers(a: seq<Tool>, b: seq<Tool>)
    requires multiset(a) == multiset(b) && Apart(a)
    ensures Apart(b)
  {
    forall i, j | 0 <= i < j < |b| ensures !Clash(b[i], b[j]) {
      if b[i] == b[j] {
        TwiceInBoth(a, b, i, j);
        TwoPlaces(a, b[i]);
      } else {
        assert b[i] in multiset(b) && b[j] in multiset(b);
        var k :| 0 <= k < |a| && a[k] == b[i];
        var l :| 0 <= l < |a| && a[l] == b[j];
        assert if k < l then !Clash(a[k], a[l]) else !Clash(a[l], a[k]);
      }
    }
  }

  lemma SoundTransfers(a: seq<Tool>, b: seq<Tool>)
    requires multiset(a) == multiset(b) && Sound(a)
    ensures Sound(b)
  {
    ApartTransfers(a, b);
    forall t | t in b ensures t in a {
      assert t in multiset(b);
    }
    assert |multiset(a)| == |multiset(b)|;
  }

  /** The answer does not depend on the order of the definitions. */
  lemma ResolveIgnoresOrder(a: seq<Tool>, b: seq<Tool>, id: nat, name: string)
    requires multiset(a) == multiset(b)
    ensures Resolve(Some(a), id, name) == Resolve(Some(b), id, name)
  {
    if Sound(a) {
      SoundTransfers(a, b);
      var r := LastMatch(b, id, name);
      forall t | t in a || t in b ensures t in a && t in b {
        assert t in multiset(a) && t in multiset(b);
      }
      if r.Some? {
        ResolveMeaning(a, id, name, r.value);
      }
    } else if Sound(b) {
      SoundTransfers(b, a);
    }
  }

  // -------------------------------------------------------------------- freezing

  predicate Enabled(rows: Rows, id: nat, organization: nat, agent: nat) {
    Owned(rows, id, organization, agent) && rows[id].enabled
  }

  /** The agent's enabled tools, each once, in some order. */
  ghost predicate Lists(rows: Rows, organization: nat, agent: nat, ids: seq<nat>) {
    && (forall i, j | 0 <= i < j < |ids| :: ids[i] != ids[j])
    && (forall id :: id in ids <==> Enabled(rows, id, organization, agent))
  }

  /** The `tools` member built by `CreateVoiceAgentSession`, for one ordering. */
  function Freeze(rows: Rows, ids: seq<nat>): (tools: seq<Tool>)
    requires forall id <- ids :: id in rows
    ensures |tools| == |ids| && forall i | 0 <= i < |ids| :: tools[i] == rows[ids[i]].tool
  {
    seq(|ids|, i requires 0 <= i < |ids| => rows[ids[i]].tool)
  }

  /** One enabled tool with null parameters makes the whole snapshot unsound, and
      nothing else does. */
  lemma FrozenSound(rows: Rows, organization: nat, agent: nat, ids: seq<nat>)
    requires ValidRows(rows) && Lists(rows, organization, agent, ids) && ids != []
    ensures Sound(Freeze(rows, ids)) <==> forall id <- ids :: rows[id].tool.parameters.Object?
  {
    var tools := Freeze(rows, ids);
    forall i, j | 0 <= i < j < |ids| ensures !Clash(tools[i], tools[j]) {
      assert ids[i] in ids && ids[j] in ids;
    }
    if Sound(tools) {
      forall id | id in ids ensures rows[id].tool.parameters.Object? {
        var i :| 0 <= i < |ids| && ids[i] == id;
        assert tools[i] in tools && WellFormed(tools[i]);
      }
    } else if forall id <- ids :: rows[id].tool.parameters.Object? {
      forall i | 0 <= i < |ids| ensures WellFormed(tools[i]) {
        assert ids[i] in ids;
      }
    }
  }

  /** After any run of catalogue edits, a frozen enabled tool is found by its id,
      by its name and by both, exactly when no enabled tool of the agent has null
      parameters. */
  lemma FrozenToolResolves(edits: seq<Edit>, https: string -> bool,
                           organization: nat, agent: nat, ids: seq<nat>, id: nat)
    requires Lists(AfterEdits(edits, https), organization, agent, ids) && id in ids
    ensures
      var rows := AfterEdits(edits, https);
      var snapshot := Some(Freeze(rows, ids));
      var t := rows[id].tool;
      && (Resolve(snapshot, id, "") == Some(t) <==> forall k <- ids :: rows[k].tool.parameters.Object?)
      && (Resolve(snapshot, NIL, t.name) == Some(t) <==> forall k <- ids :: rows[k].tool.parameters.Object?)
      && (Resolve(snapshot, id, t.name) == Some(t) <==> forall k <- ids :: rows[k].tool.parameters.Object?)
  {
    var rows := AfterEdits(edits, https);
    EditsKeepValid(edits, https);
    var tools := Freeze(rows, ids);
    var t := rows[id].tool;
    FrozenSound(rows, organization, agent, ids);
    var i :| 0 <= i < |ids| && ids[i] == id;
    assert t == tools[i] && t in tools && t.name != "" && t.id == id;
    ResolveMeaning(tools, id, "", t);
    ResolveMeaning(tools, NIL, t.name, t);
    ResolveMeaning(tools, id, t.name, t);
  }

  const HOLD := Tool(1, "hold_call", "Hold", Object(map[]), Builtin, None, 3000)

  const RESUME := Tool(2, "resume_call", "Resume", Null, Builtin, None, 3000)

  lemma HoldIsWellFormed()
    ensures WellFormed(HOLD)
  {
    assert TrimLeft(HOLD.name) == HOLD.name && TrimRight(HOLD.name) == HOLD.name;
  }

  /** Two enabled tools, one with null parameters: neither can be called. */
  lemma NullParametersDenyAll()
    ensures Resolve(Some([HOLD]), 1, "") == Some(HOLD)
    ensures Resolve(Some([HOLD, RESUME]), 1, "") == None
    ensures Resolve(Some([HOLD, RESUME]), NIL, "hold_call") == None
  {
    HoldIsWellFormed();
    ResolveMeaning([HOLD], 1, "", HOLD);
    assert RESUME in [HOLD, RESUME] && !WellFormed(RESUME);
  }

  /** Nothing else is ever found: what resolves was an enabled tool of the agent
      when the snapshot was taken, and has the id and the name asked for. */
  lemma OnlyFrozenToolsResolve(rows: Rows, organization: nat, agent: nat, ids: seq<nat>, id: nat, name: string)
    requires ValidRows(rows) && Lists(rows, organization, agent, ids)
    requires Resolve(Some(Freeze(rows, ids)), id, name).Some?
    ensures var t := Resolve(Some(Freeze(rows, ids)), id, name).value;
            && t.id in rows && rows[t.id].enabled && rows[t.id].tool == t
            && rows[t.id].organization == organization && rows[t.id].agent == agent
            && id in {NIL, t.id} && name in {"", t.name}
  {
    var tools := Freeze(rows, ids);
    var t := Resolve(Some(tools), id, name).value;
    ResolveMeaning(tools, id, name, t);
    var i :| 0 <= i < |tools| && tools[i] == t;
    assert ids[i] in ids;
  }

  // --------------------------------------------------------------- authorization

  /** The columns of a voice agent session that authorization reads. */
  datatype Session = Session(organization: nat, agent: nat, call: nat, active: bool, snapshot: Option<seq<Tool>>)

  datatype Request = Request(
    organization: nat,
    agent: nat,
    session: nat,
    call: nat,
    tool: nat,
    name: string,
    toolCallId: string,
    arguments: Document)

  /** The checks of `Execute` before it touches the database; the tool call id has
      been trimmed, and the arguments decode to an object. */
  predicate WellFormedRequest(r: Request) {
    && r.organization != NIL && r.agent != NIL && r.session != NIL && r.call != NIL
    && (r.tool != NIL || !Blank(r.name))
    && Trim(r.toolCallId) == r.toolCallId && 1 <= |r.toolCallId| <= 255
    && r.arguments.DObject? && Decodes(r.arguments)
  }

  /** `validateExecutionSession`, for the row read by id and organization. */
  predicate Authorizes(stored: Session, r: Request) {
    stored.organization == r.organization && stored.agent == r.agent && stored.call == r.call && stored.active
  }

  /** `bindExecutionTool`: a copy of the live row with every setting frozen. */
  function Bind(current: Row, frozen: Tool): Option<Row> {
    if current.tool.id != frozen.id || !current.enabled then None
    else
      var tool := current.tool.(name := frozen.name, kind := frozen.kind, description := frozen.description,
                                parameters := frozen.parameters, endpoint := frozen.endpoint,
                                timeout := frozen.timeout);
      Some(current.(tool := tool))
  }

  /** Session check, resolution, and the live row as a gate, in the order of
      `Execute`. `live` is the row of the resolved tool, if it can be read. */
  function Authorize(stored: Session, r: Request, live: Option<Row>): Option<Tool> {
    if !WellFormedRequest(r) || !Authorizes(stored, r) then None
    else
      var frozen := Resolve(stored.snapshot, r.tool, r.name);
      if frozen.None? || live.None? then None
      else
        var bound := Bind(live.value, frozen.value);
        if bound.None? then None else Some(bound.value.tool)
  }

  /** The live row decides whether, never what: where two live rows both let the
      call through it runs the same tool, the one frozen in the session; and a row
      lets it through exactly when it is that tool's and enabled. */
  lemma LiveRowOnlyRevokes(stored: Session, r: Request, live: Option<Row>)
    requires WellFormedRequest(r) && Authorizes(stored, r) && Resolve(stored.snapshot, r.tool, r.name).Some?
    ensures var frozen := Resolve(stored.snapshot, r.tool, r.name).value;
            && Authorize(stored, r, live) in {None, Some(frozen)}
            && (Authorize(stored, r, live) == Some(frozen)
                <==> live.Some? && live.value.enabled && live.value.tool.id == frozen.id)
  {
    var frozen := Resolve(stored.snapshot, r.tool, r.name).value;
    if live.Some? && Bind(live.value, frozen).Some? {
      assert Bind(live.value, frozen).value.tool == frozen;
    }
  }
}
