/** The mutable catalogue of an agent's tools: validated requests, guarded
    INSERT/UPDATE/DELETE, and what every run of edits keeps true of the rows. */
module ToolCatalog {
  import opened Sql
  import opened Json
  import opened Text

  // ----------------------------------------------------------------------- tools

  datatype Kind = Builtin | Webhook | Unsupported

  /** A definition, in the catalogue or frozen in a session. Parameters that are
      missing from a frozen definition are `Null`. */
  datatype Tool = Tool(
    id: nat,
    name: string,
    description: string,
    parameters: Jsonb,
    kind: Kind,
    endpoint: Option<string>,
    timeout: int)

  datatype Row = Row(organization: nat, agent: nat, tool: Tool, enabled: bool)

  type Rows = map<nat, Row>

  const BUILTINS: set<string> := {"hangup_call", "transfer_call", "hold_call", "resume_call", "send_dtmf"}

  datatype ToolError = BadRequest | Conflict | NotFound

  datatype CreateRequest = CreateRequest(
    kind: Option<Kind>,
    name: string,
    description: string,
    parameters: Option<Jsonb>,
    endpoint: Option<string>,
    timeout: Option<int>,
    enabled: Option<bool>)

  datatype UpdateRequest = UpdateRequest(
    name: Option<string>,
    description: Option<string>,
    parameters: Option<Jsonb>,
    endpoint: Option<string>,
    timeout: Option<int>,
    enabled: Option<bool>)

  // ------------------------------------------------------------------ validation

  function Required(value: string, max: nat): Result<string, ToolError> {
    var trimmed := Trim(value);
    if trimmed == "" || |trimmed| > max then Err(BadRequest) else Ok(trimmed)
  }

  /** Decoding into a map accepts an object, and also a literal null. */
  predicate ValidParameters(v: Jsonb) {
    v.Object? || v.Null?
  }

  predicate ValidTimeout(t: int) {
    100 <= t <= 30000
  }

  /** `https` tells whether a non-empty text parses as an https URL with a host. */
  function ValidateEndpoint(kind: Kind, endpoint: Option<string>, https: string -> bool)
    : Result<Option<string>, ToolError>
  {
    if kind.Builtin? then if endpoint.Some? then Err(BadRequest) else Ok(None)
    else if endpoint.None? then Err(BadRequest)
    else
      var value := Trim(endpoint.value);
      if value == "" || !https(value) then Err(BadRequest) else Ok(Some(value))
  }

  /** `normalizeCreate` and the defaults of the insert. */
  function NewTool(id: nat, req: CreateRequest, https: string -> bool): Result<Tool, ToolError> {
    var kind := if req.kind.None? then Webhook else req.kind.value;
    var name := Required(req.name, 128);
    var description := Required(req.description, 2000);
    var parameters := if req.parameters.None? then Object(map[]) else req.parameters.value;
    var endpoint := ValidateEndpoint(kind, req.endpoint, https);
    if kind.Unsupported? || name.Err? || description.Err? || !ValidParameters(parameters)
       || (req.timeout.Some? && !ValidTimeout(req.timeout.value)) || endpoint.Err?
       || (kind.Builtin? && name.value !in BUILTINS)
    then Err(BadRequest)
    else
      Ok(Tool(id, name.value, description.value, parameters, kind, endpoint.value,
              if req.timeout.None? then 3000 else req.timeout.value))
  }

  /** `normalizeUpdate`, the checks against the current type, and the COALESCE
      assignments. */
  function UpdatedTool(current: Tool, req: UpdateRequest, https: string -> bool): Result<Tool, ToolError> {
    var name := if req.name.None? then Ok(current.name) else Required(req.name.value, 128);
    var description :=
      if req.description.None? then Ok(current.description) else Required(req.description.value, 2000);
    var endpoint :=
      if req.endpoint.None? then Ok(current.endpoint) else ValidateEndpoint(current.kind, req.endpoint, https);
    if req == UpdateRequest(None, None, None, None, None, None)
       || name.Err? || description.Err? || endpoint.Err?
       || (req.parameters.Some? && !ValidParameters(req.parameters.value))
       || (req.timeout.Some? && !ValidTimeout(req.timeout.value))
       || (req.name.Some? && current.kind.Builtin? && name.value !in BUILTINS)
    then Err(BadRequest)
    else
      Ok(current.(name := name.value,
                  description := description.value,
                  parameters := Coalesce(req.parameters, current.parameters),
                  endpoint := endpoint.value,
                  timeout := Coalesce(req.timeout, current.timeout)))
  }

  // ----------------------------------------------------------------------- edits

  /** `active`: the joined agent and organization were active at that moment. */
  datatype Edit =
    | Create(id: nat, organization: nat, agent: nat, create: CreateRequest, active: bool)
    | Update(id: nat, organization: nat, agent: nat, update: UpdateRequest, active: bool)
    | Delete(id: nat, organization: nat, agent: nat, active: bool)

  predicate Owned(rows: Rows, id: nat, organization: nat, agent: nat) {
    id in rows && rows[id].organization == organization && rows[id].agent == agent
  }

  /** Another tool of the agent already has the name. */
  predicate NameTaken(rows: Rows, id: nat, organization: nat, agent: nat, name: string) {
    exists other <- rows :: other != id && Owned(rows, other, organization, agent) && rows[other].tool.name == name
  }

  function Put(rows: Rows, id: nat, row: Row): Rows {
    if NameTaken(rows, id, row.organization, row.agent, row.tool.name) then rows else rows[id := row]
  }

  /** An edit that is refused, or matches no row, changes nothing. */
  function NextRows(rows: Rows, e: Edit, https: string -> bool): Rows {
    match e
    case Create(id, organization, agent, req, active) =>
      var tool := NewTool(id, req, https);
      if tool.Err? || !active || id in rows || id == NIL then rows
      else Put(rows, id, Row(organization, agent, tool.value, Coalesce(req.enabled, true)))
    case Update(id, organization, agent, req, active) =>
      if !Owned(rows, id, organization, agent) || !active then rows
      else
        var tool := UpdatedTool(rows[id].tool, req, https);
        if tool.Err? then rows
        else Put(rows, id, Row(organization, agent, tool.value, Coalesce(req.enabled, rows[id].enabled)))
    case Delete(id, organization, agent, active) =>
      if !Owned(rows, id, organization, agent) || !active then rows else rows - {id}
  }

  function AfterEdits(edits: seq<Edit>, https: string -> bool): Rows {
    if edits == [] then map[]
    else NextRows(AfterEdits(edits[..|edits| - 1], https), edits[|edits| - 1], https)
  }

  /** What the resolver demands of a definition, with null parameters allowed. */
  predicate Usable(t: Tool) {
    && t.id != NIL && !Blank(t.name) && ValidTimeout(t.timeout)
    && match t.kind
       case Builtin => t.endpoint.None?
       case Webhook => t.endpoint.Some? && !Blank(t.endpoint.value)
       case Unsupported => false
  }

  /** No two tools of one agent have the same name. */
  ghost predicate NamesApart(rows: Rows) {
    forall i <- rows, j <- rows ::
      i != j && rows[i].organization == rows[j].organization && rows[i].agent == rows[j].agent
      ==> rows[i].tool.name != rows[j].tool.name
  }

  lemma PutKeepsApart(rows: Rows, id: nat, row: Row)
    requires NamesApart(rows)
    ensures NamesApart(Put(rows, id, row))
  {
  }

  ghost predicate ValidRows(rows: Rows) {
    && (forall id <- rows ::
          rows[id].tool.id == id && Usable(rows[id].tool) && ValidParameters(rows[id].tool.parameters))
    && NamesApart(rows)
  }

  lemma NewToolUsable(id: nat, req: CreateRequest, https: string -> bool)
    requires id != NIL && NewTool(id, req, https).Ok?
    ensures var t := NewTool(id, req, https).value; t.id == id && Usable(t) && ValidParameters(t.parameters)
  {
    TrimTwice(req.name);
    if req.endpoint.Some? {
      TrimTwice(req.endpoint.value);
    }
  }

  lemma UpdatedToolUsable(current: Tool, req: UpdateRequest, https: string -> bool)
    requires Usable(current) && ValidParameters(current.parameters) && UpdatedTool(current, req, https).Ok?
    ensures var t := UpdatedTool(current, req, https).value;
            t.id == current.id && Usable(t) && ValidParameters(t.parameters)
  {
    if req.name.Some? {
      TrimTwice(req.name.value);
    }
    if req.endpoint.Some? {
      TrimTwice(req.endpoint.value);
    }
  }

  lemma PutKeepsValid(rows: Rows, id: nat, row: Row)
    requires ValidRows(rows)
    requires row.tool.id == id && Usable(row.tool) && ValidParameters(row.tool.parameters)
    ensures ValidRows(Put(rows, id, row))
  {
    PutKeepsApart(rows, id, row);
  }

  lemma EditKeepsValid(rows: Rows, e: Edit, https: string -> bool)
    requires ValidRows(rows)
    ensures ValidRows(NextRows(rows, e, https))
  {
    match e
    case Create(id, organization, agent, req, _) =>
      var tool := NewTool(id, req, https);
      if id != NIL && tool.Ok? {
        NewToolUsable(id, req, https);
        PutKeepsValid(rows, id, Row(organization, agent, tool.value, Coalesce(req.enabled, true)));
      }
    case Update(id, organization, agent, req, _) =>
      if Owned(rows, id, organization, agent) {
        var tool := UpdatedTool(rows[id].tool, req, https);
        if tool.Ok? {
          UpdatedToolUsable(rows[id].tool, req, https);
          PutKeepsValid(rows, id, Row(organization, agent, tool.value, Coalesce(req.enabled, rows[id].enabled)));
        }
      }
    case Delete(_, _, _, _) =>
  }

  /** Every run of edits leaves definitions the resolver can use, named apart. */
  lemma {:induction false} EditsKeepValid(edits: seq<Edit>, https: string -> bool)
    ensures ValidRows(AfterEdits(edits, https))
  {
    if edits != [] {
      var n := |edits| - 1;
      EditsKeepValid(edits[..n], https);
      EditKeepsValid(AfterEdits(edits[..n], https), edits[n], https);
    }
  }

  // ------------------------------------------------- exactly what edits can reach

  /** A definition in the form in which requests store it. */
  predicate Settled(t: Tool, https: string -> bool) {
    && t.id != NIL && 100 <= t.timeout <= 30000 && (t.parameters.Object? || t.parameters.Null?)
    && Trim(t.name) == t.name && 1 <= |t.name| <= 128
    && Trim(t.description) == t.description && 1 <= |t.description| <= 2000
    && match t.kind
       case Builtin =>
         t.endpoint.None?
         && t.name in {"hangup_call", "transfer_call", "hold_call", "resume_call", "send_dtmf"}
       case Webhook =>
         t.endpoint.Some? && t.endpoint.value != "" && Trim(t.endpoint.value) == t.endpoint.value
         && https(t.endpoint.value)
       case Unsupported => false
  }

  /** Settled definitions under their own ids, named apart within an agent. */
  ghost predicate SettledRows(rows: Rows, https: string -> bool) {
    && (forall id <- rows :: rows[id].tool.id == id && Settled(rows[id].tool, https))
    && NamesApart(rows)
  }

  lemma NewToolSettled(id: nat, req: CreateRequest, https: string -> bool)
    requires id != NIL && NewTool(id, req, https).Ok?
    ensures Settled(NewTool(id, req, https).value, https)
  {
    NewToolUsable(id, req, https);
    TrimTwice(req.name);
    TrimTwice(req.description);
    if req.endpoint.Some? {
      TrimTwice(req.endpoint.value);
    }
  }

  lemma UpdatedToolSettled(current: Tool, req: UpdateRequest, https: string -> bool)
    requires Settled(current, https) && UpdatedTool(current, req, https).Ok?
    ensures var t := UpdatedTool(current, req, https).value;
            Settled(t, https) && t.id == current.id && t.kind == current.kind
  {
    UpdatedToolUsable(current, req, https);
    if req.name.Some? {
      TrimTwice(req.name.value);
    }
    if req.description.Some? {
      TrimTwice(req.description.value);
    }
    if req.endpoint.Some? {
      TrimTwice(req.endpoint.value);
    }
  }

  lemma PutKeepsSettled(rows: Rows, id: nat, row: Row, https: string -> bool)
    requires SettledRows(rows, https) && row.tool.id == id && Settled(row.tool, https)
    ensures SettledRows(Put(rows, id, row), https)
  {
    PutKeepsApart(rows, id, row);
  }

  lemma EditKeepsSettled(rows: Rows, e: Edit, https: string -> bool)
    requires SettledRows(rows, https)
    ensures SettledRows(NextRows(rows, e, https), https)
  {
    match e
    case Create(id, organization, agent, req, _) =>
      var tool := NewTool(id, req, https);
      if id != NIL && tool.Ok? {
        NewToolSettled(id, req, https);
        PutKeepsSettled(rows, id, Row(organization, agent, tool.value, Coalesce(req.enabled, true)), https);
      }
    case Update(id, organization, agent, req, _) =>
      if Owned(rows, id, organization, agent) {
        var tool := UpdatedTool(rows[id].tool, req, https);
        if tool.Ok? {
          UpdatedToolSettled(rows[id].tool, req, https);
          PutKeepsSettled(rows, id, Row(organization, agent, tool.value, Coalesce(req.enabled, rows[id].enabled)),
                          https);
        }
      }
    case Delete(_, _, _, _) =>
  }

  lemma {:induction false} EditsKeepSettled(edits: seq<Edit>, https: string -> bool)
    ensures SettledRows(AfterEdits(edits, https), https)
  {
    if edits != [] {
      var n := |edits| - 1;
      EditsKeepSettled(edits[..n], https);
      EditKeepsSettled(AfterEdits(edits[..n], https), edits[n], https);
    }
  }

  /** Creating a tool stores what was asked for, every field of it. */
  lemma CreateReaches(rows: Rows, row: Row, https: string -> bool) returns (e: Edit)
    requires Settled(row.tool, https) && row.tool.id !in rows
    requires !NameTaken(rows, row.tool.id, row.organization, row.agent, row.tool.name)
    ensures NextRows(rows, e, https) == rows[row.tool.id := row]
  {
    var t := row.tool;
    var req := CreateRequest(Some(t.kind), t.name, t.description, Some(t.parameters), t.endpoint,
                             Some(t.timeout), Some(row.enabled));
    assert NewTool(t.id, req, https) == Ok(t);
    e := Create(t.id, row.organization, row.agent, req, true);
  }

  lemma Removed(rows: Rows, id: nat)
    requires id in rows
    ensures (rows - {id}).Keys == rows.Keys - {id} && |rows - {id}| < |rows|
    ensures (rows - {id})[id := rows[id]] == rows
  {
    assert |rows| == |rows.Keys| && |rows - {id}| == |(rows - {id}).Keys|;
  }

  lemma FewerSettled(rows: Rows, id: nat, https: string -> bool)
    requires SettledRows(rows, https) && id in rows
    ensures SettledRows(rows - {id}, https)
    ensures !NameTaken(rows - {id}, id, rows[id].organization, rows[id].agent, rows[id].tool.name)
  {
    var fewer := rows - {id};
    assert forall other <- fewer :: other in rows && other != id && fewer[other] == rows[other];
  }

  /** A settled catalogue is built by creating its tools one by one. */
  lemma {:induction false} EditsReach(rows: Rows, https: string -> bool) returns (edits: seq<Edit>)
    requires SettledRows(rows, https)
    ensures AfterEdits(edits, https) == rows
    decreases |rows|
  {
    if rows == map[] {
      edits := [];
    } else {
      var id :| id in rows;
      Removed(rows, id);
      FewerSettled(rows, id, https);
      var prior := EditsReach(rows - {id}, https);
      var e := CreateReaches(rows - {id}, rows[id], https);
      edits := prior + [e];
      assert edits[..|edits| - 1] == prior;
    }
  }

  /** The catalogues that some run of edits leads to are exactly the settled ones. */
  lemma ReachableCatalogues(rows: Rows, https: string -> bool)
    ensures (exists edits :: AfterEdits(edits, https) == rows) <==> SettledRows(rows, https)
  {
    if SettledRows(rows, https) {
      var edits := EditsReach(rows, https);
    }
    forall edits | AfterEdits(edits, https) == rows ensures SettledRows(rows, https) {
      EditsKeepSettled(edits, https);
    }
  }

  /** What one update may make of a row: the same tool and type under a free name. */
  predicate MayBecome(rows: Rows, id: nat, next: Row, https: string -> bool)
    requires id in rows
  {
    && Settled(next.tool, https) && next.tool.id == id && next.tool.kind == rows[id].tool.kind
    && next.organization == rows[id].organization && next.agent == rows[id].agent
    && !NameTaken(rows, id, next.organization, next.agent, next.tool.name)
  }

  /** The owner's update of a tool, as a statement. */
  function UpdateOf(rows: Rows, id: nat, req: UpdateRequest): Edit
    requires id in rows
  {
    Update(id, rows[id].organization, rows[id].agent, req, true)
  }

  /** An update naming all fields of another definition leads there. */
  lemma UpdateReaches(rows: Rows, id: nat, next: Row, https: string -> bool) returns (req: UpdateRequest)
    requires id in rows && rows[id].tool.id == id && Settled(rows[id].tool, https)
    requires MayBecome(rows, id, next, https)
    ensures NextRows(rows, UpdateOf(rows, id, req), https) == rows[id := next]
  {
    var t := next.tool;
    req := UpdateRequest(Some(t.name), Some(t.description), Some(t.parameters), t.endpoint, Some(t.timeout),
                         Some(next.enabled));
    assert UpdatedTool(rows[id].tool, req, https) == Ok(t);
  }

  /** No update leads anywhere else. */
  lemma UpdateLeads(rows: Rows, id: nat, req: UpdateRequest, https: string -> bool) returns (next: Row)
    requires id in rows && rows[id].tool.id == id && Settled(rows[id].tool, https)
    ensures var after := NextRows(rows, UpdateOf(rows, id, req), https);
            after == rows || (MayBecome(rows, id, next, https) && after == rows[id := next])
  {
    var row := rows[id];
    next := row;
    if UpdatedTool(row.tool, req, https).Ok? {
      UpdatedToolSettled(row.tool, req, https);
      next := Row(row.organization, row.agent, UpdatedTool(row.tool, req, https).value,
                  Coalesce(req.enabled, row.enabled));
    }
  }

  lemma EmptyUpdate(rows: Rows, id: nat, https: string -> bool)
    requires id in rows
    ensures NextRows(rows, UpdateOf(rows, id, UpdateRequest(None, None, None, None, None, None)), https) == rows
  {
  }

  /** The catalogues that one update of a tool leads to are exactly the one there is
      and those in which the tool is another settled one of its type. */
  lemma ReachableByUpdate(rows: Rows, id: nat, after: Rows, https: string -> bool)
    requires SettledRows(rows, https) && id in rows
    ensures (exists req :: NextRows(rows, UpdateOf(rows, id, req), https) == after)
            <==> after == rows || exists next :: MayBecome(rows, id, next, https) && after == rows[id := next]
  {
    if req :| NextRows(rows, UpdateOf(rows, id, req), https) == after {
      var next := UpdateLeads(rows, id, req, https);
    } else if after == rows {
      EmptyUpdate(rows, id, https);
    } else if next :| MayBecome(rows, id, next, https) && after == rows[id := next] {
      var req := UpdateReaches(rows, id, next, https);
    }
  }
}
