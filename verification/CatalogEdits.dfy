/** What one request makes of an agent's catalogue: when it is carried out, what it
    stores for fields that are given, and what for fields that are not. */
module CatalogEdits {
  import opened Sql
  import opened Json
  import opened Text
  import opened ToolCatalog

  predicate GoodText(text: string, max: nat) {
    1 <= |Trim(text)| <= max
  }

  predicate GoodRest(parameters: Option<Jsonb>, timeout: Option<int>) {
    && (parameters.Some? ==> parameters.value.Object? || parameters.value.Null?)
    && (timeout.Some? ==> 100 <= timeout.value <= 30000)
  }

  predicate GoodEndpoint(endpoint: Option<string>, https: string -> bool) {
    endpoint.Some? && Trim(endpoint.value) != "" && https(Trim(endpoint.value))
  }

  predicate BuiltinName(name: string) {
    Trim(name) in {"hangup_call", "transfer_call", "hold_call", "resume_call", "send_dtmf"}
  }

  /** A request to create a tool that validation lets through. */
  predicate GoodCreate(req: CreateRequest, https: string -> bool) {
    && GoodText(req.name, 128) && GoodText(req.description, 2000) && GoodRest(req.parameters, req.timeout)
    && (if req.kind == Some(Builtin) then req.endpoint.None? && BuiltinName(req.name)
        else req.kind != Some(Unsupported) && GoodEndpoint(req.endpoint, https))
  }

  /** What it stores: texts without blanks at their ends, and for what is missing a
      webhook, no parameters, three seconds, and enabled. */
  predicate StoresCreate(req: CreateRequest, row: Row) {
    && row.tool.name == Trim(req.name) && row.tool.description == Trim(req.description)
    && (if req.kind.None? then row.tool.kind == Webhook else row.tool.kind == req.kind.value)
    && (if req.parameters.None? then row.tool.parameters == Object(map[])
        else row.tool.parameters == req.parameters.value)
    && (if req.endpoint.None? then row.tool.endpoint == None
        else row.tool.endpoint == Some(Trim(req.endpoint.value)))
    && (if req.timeout.None? then row.tool.timeout == 3000 else row.tool.timeout == req.timeout.value)
    && (row.enabled <==> req.enabled != Some(false))
  }

  lemma NewToolIs(id: nat, req: CreateRequest, https: string -> bool)
    ensures NewTool(id, req, https).Ok? <==> GoodCreate(req, https)
    ensures GoodCreate(req, https) ==>
              var t := NewTool(id, req, https).value;
              t.id == id && StoresCreate(req, Row(0, 0, t, Coalesce(req.enabled, true)))
  {
  }

  /** A creation is carried out exactly when validation lets it through, the agent is
      active, and the id and the name are free; nothing else in the catalogue changes. */
  lemma CreateIs(rows: Rows, id: nat, organization: nat, agent: nat, req: CreateRequest, active: bool,
                 https: string -> bool)
    requires id !in rows && id != NIL
    ensures var after := NextRows(rows, Create(id, organization, agent, req, active), https);
            if active && GoodCreate(req, https) && !NameTaken(rows, id, organization, agent, Trim(req.name))
            then
              && id in after && after == rows[id := after[id]] && StoresCreate(req, after[id])
              && after[id].tool.id == id && after[id].organization == organization && after[id].agent == agent
            else after == rows
  {
    NewToolIs(id, req, https);
  }

  /** A request to change this tool that validation lets through. */
  predicate GoodUpdate(current: Tool, req: UpdateRequest, https: string -> bool) {
    && req != UpdateRequest(None, None, None, None, None, None)
    && (req.name.Some? ==> GoodText(req.name.value, 128)
                           && (current.kind == Builtin ==> BuiltinName(req.name.value)))
    && (req.description.Some? ==> GoodText(req.description.value, 2000))
    && GoodRest(req.parameters, req.timeout)
    && (req.endpoint.Some? ==> current.kind != Builtin && GoodEndpoint(req.endpoint, https))
  }

  function NameAfter(before: Row, req: UpdateRequest): string {
    if req.name.None? then before.tool.name else Trim(req.name.value)
  }

  /** What it stores: every field that is not given stays. */
  predicate StoresUpdate(before: Row, req: UpdateRequest, row: Row) {
    && row.organization == before.organization && row.agent == before.agent
    && row.tool.id == before.tool.id && row.tool.kind == before.tool.kind
    && row.tool.name == NameAfter(before, req)
    && (if req.description.None? then row.tool.description == before.tool.description
        else row.tool.description == Trim(req.description.value))
    && (if req.parameters.None? then row.tool.parameters == before.tool.parameters
        else row.tool.parameters == req.parameters.value)
    && (if req.endpoint.None? then row.tool.endpoint == before.tool.endpoint
        else row.tool.endpoint == Some(Trim(req.endpoint.value)))
    && (if req.timeout.None? then row.tool.timeout == before.tool.timeout
        else row.tool.timeout == req.timeout.value)
    && (if req.enabled.None? then row.enabled == before.enabled else row.enabled == req.enabled.value)
  }

  lemma UpdatedToolIs(before: Row, req: UpdateRequest, https: string -> bool)
    ensures UpdatedTool(before.tool, req, https).Ok? <==> GoodUpdate(before.tool, req, https)
    ensures GoodUpdate(before.tool, req, https) ==>
              StoresUpdate(before, req, before.(tool := UpdatedTool(before.tool, req, https).value,
                                                enabled := Coalesce(req.enabled, before.enabled)))
  {
  }

  /** An update is carried out exactly when validation lets it through, the tool is of
      that active agent, and a new name is free; nothing else changes. */
  lemma UpdateIs(rows: Rows, id: nat, organization: nat, agent: nat, req: UpdateRequest, active: bool,
                 https: string -> bool)
    requires id in rows
    ensures var after := NextRows(rows, Update(id, organization, agent, req, active), https);
            if active && rows[id].organization == organization && rows[id].agent == agent
               && GoodUpdate(rows[id].tool, req, https)
               && !NameTaken(rows, id, organization, agent, NameAfter(rows[id], req))
            then id in after && after == rows[id := after[id]] && StoresUpdate(rows[id], req, after[id])
            else after == rows
  {
    UpdatedToolIs(rows[id], req, https);
  }

  /** A deletion removes that tool of that active agent alone. */
  lemma DeleteIs(rows: Rows, id: nat, organization: nat, agent: nat, active: bool, https: string -> bool)
    ensures var after := NextRows(rows, Delete(id, organization, agent, active), https);
            && (id in after <==>
                  id in rows && !(active && rows[id].organization == organization && rows[id].agent == agent))
            && forall other | other != id ::
                 (other in after <==> other in rows) && (other in rows ==> after[other] == rows[other])
  {
  }
}
