/** The hand-written basic MCP server (`MCP_scratch/basic_server.py`):
    one Flask route whose handler dispatches a JSON-RPC request over the
    read-only protein table. Flask itself is not modelled; the handler is
    a function from the request object to the reply. */
module ScratchBasicServer {
  import opened Wrappers
  import opened ProteinDb
  import opened JsonRpc

  const ProteinsUri := "protein://proteins"

  /** The methods the handler answers; every other method name (or a
      missing one) falls through to "Method not found". */
  const Methods: set<string> :=
    {"initialize", "resources/list", "resources/read", "tools/list", "tools/call",
     "notifications/initialized"}

  const ServerInfo := Initialized(ProtocolVersion, ["resources", "tools", "logging"], false,
                                  "Protein MCP Server", "1.0.0")

  const ProteinResource := ResourceInfo(ProteinsUri, "Protein Database", "Sample protein data",
                                        "application/json")

  const FunctionTool := ToolInfo("get_protein_function", "Get protein function by ID", "protein_id",
                                 "Protein ID (e.g., P53_HUMAN)")

  /** `tools/call` of `get_protein_function` with the given arguments:
      a known protein with a `function` field gets that function as text,
      a known protein without one makes the handler raise, and any other
      id (a missing one included) gets -32602. */
  function ProteinFunction(id: Id, args: map<string, string>, db: Table): (r: Reply)
    ensures r.ServerError? || (r.Envelope? && r.id == id)
    ensures r.ServerError? <==>
              Arg(args, "protein_id").Some? && Has(db, Arg(args, "protein_id").value)
              && "function" !in At(db, Arg(args, "protein_id").value)
    ensures (r.Envelope? && r.body.Result?) <==>
              Arg(args, "protein_id").Some? && Has(db, Arg(args, "protein_id").value)
              && "function" in At(db, Arg(args, "protein_id").value)
    ensures r.Envelope? && r.body.Result? ==>
              var pid := Arg(args, "protein_id").value;
              r.body.value == TextContent("Function of " + pid + ": " + Show(At(db, pid)["function"]), None)
    ensures r.Envelope? && r.body.Error? ==>
              r.body == Error(InvalidParams, "Protein " + ShowOpt(Arg(args, "protein_id")) + " not found")
  {
    var pid := Arg(args, "protein_id");
    if pid.Some? && Has(db, pid.value) then
      var rec := At(db, pid.value);
      if "function" in rec then
        Envelope(id, Result(TextContent("Function of " + pid.value + ": " + Show(rec["function"]), None)))
      else
        ServerError  // KeyError on the record's missing 'function'
    else
      Envelope(id, Error(InvalidParams, "Protein " + ShowOpt(pid) + " not found"))
  }

  /** `handle_mcp`: a request that is not JSON-RPC 2.0 gets -32600 with a
      null id; every other envelope echoes the request id; a method the
      server does not route gets -32601. */
  function HandleMcp(req: Request, db: Table): (r: Reply)
    ensures req.jsonrpc != Some(Version) ==> r == InvalidRequestReply
    ensures req.jsonrpc == Some(Version) ==> (r.Envelope? && r.id == req.id) || r.ServerError?
    ensures req.jsonrpc == Some(Version) && (req.methodName.None? || req.methodName.value !in Methods) ==>
              r == Envelope(req.id, Error(MethodNotFound, "Method not found"))
    ensures r.ServerError? ==> req.methodName == Some("tools/call")
  {
    if req.jsonrpc != Some(Version) then InvalidRequestReply
    else
      var params := ParamsOf(req);
      var id := req.id;
      if req.methodName == Some("initialize") then
        Envelope(id, Result(ServerInfo))
      else if req.methodName == Some("resources/list") then
        Envelope(id, Result(ResourceList([ProteinResource])))
      else if req.methodName == Some("resources/read") then
        if ParamIs(params, "uri", ProteinsUri) then
          Envelope(id, Result(ResourceContents(ProteinsUri, "application/json", db)))
        else
          Envelope(id, Error(MethodNotFound, "Resource not found"))
      else if req.methodName == Some("tools/list") then
        Envelope(id, Result(ToolList([FunctionTool])))
      else if req.methodName == Some("tools/call") then
        if ParamIs(params, "name", "get_protein_function") then
          match ArgumentsOf(params)
          case None => ServerError  // `arguments` is not an object: `.get` raises
          case Some(args) => ProteinFunction(id, args, db)
        else
          Envelope(id, Error(MethodNotFound, "Tool not found"))
      else if req.methodName == Some("notifications/initialized") then
        Envelope(id, Result(NullResult))
      else
        Envelope(id, Error(MethodNotFound, "Method not found"))
  }

  /** The handshake reports protocol version 2024-11-05, the resources,
      tools and logging capabilities and the server's name and version,
      under the request's id, whatever the params. */
  lemma InitializeHandshake(id: Id, params: Params, db: Table)
    ensures HandleMcp(Call(id, "initialize", params), db)
            == Envelope(id, Result(Initialized("2024-11-05", ["resources", "tools", "logging"], false,
                                               "Protein MCP Server", "1.0.0")))
  {
  }

  /** `resources/read` returns the table exactly for the uri
      `protein://proteins`; any other uri (or none) gets -32601. */
  lemma ReadResourceOnlyProteins(id: Id, params: Params, db: Table)
    ensures var r := HandleMcp(Call(id, "resources/read", params), db);
            (r.Envelope? && r.body.Result?) <==> ParamIs(params, "uri", ProteinsUri)
    ensures var r := HandleMcp(Call(id, "resources/read", params), db);
            !ParamIs(params, "uri", ProteinsUri) ==> r == Envelope(id, Error(MethodNotFound, "Resource not found"))
  {
  }

  /** `get_protein_function` on a known id whose record has a function
      returns "Function of {id}: {function}". */
  lemma FunctionOfKnownProtein(id: Id, pid: string, db: Table)
    requires Has(db, pid) && "function" in At(db, pid)
    ensures HandleMcp(Call(id, "tools/call", map["name" := PStr("get_protein_function"),
                                                   "arguments" := PObj(map["protein_id" := pid])]), db)
            == Envelope(id, Result(TextContent("Function of " + pid + ": " + Show(At(db, pid)["function"]), None)))
  {
    var args := map["protein_id" := pid];
    FunctionCallRoute(id, args, db);
    assert Arg(args, "protein_id") == Some(pid);
  }

  /** A `tools/call` of `get_protein_function` with an object of
      arguments is answered by `ProteinFunction`. */
  lemma FunctionCallRoute(id: Id, args: map<string, string>, db: Table)
    ensures HandleMcp(Call(id, "tools/call", map["name" := PStr("get_protein_function"), "arguments" := PObj(args)]), db)
            == ProteinFunction(id, args, db)
  {
    var params := map["name" := PStr("get_protein_function"), "arguments" := PObj(args)];
    assert "tools/call"[0] != "initialize"[0] && "tools/call"[6] != "tools/list"[6];
    var req := Call(id, "tools/call", params);
    assert ParamsOf(req) == params && ParamIs(params, "name", "get_protein_function");
    assert ArgumentsOf(params) == Some(args);
  }

  /** `get_protein_function` on an unknown id gets -32602 naming it. */
  lemma FunctionOfUnknownProtein(id: Id, pid: string, db: Table)
    requires !Has(db, pid)
    ensures HandleMcp(Call(id, "tools/call", map["name" := PStr("get_protein_function"),
                                                   "arguments" := PObj(map["protein_id" := pid])]), db)
            == Envelope(id, Error(InvalidParams, "Protein " + pid + " not found"))
  {
  }

  /** Any tool other than `get_protein_function` gets -32601. */
  lemma UnknownTool(id: Id, params: Params, db: Table)
    requires !ParamIs(params, "name", "get_protein_function")
    ensures HandleMcp(Call(id, "tools/call", params), db) == Envelope(id, Error(MethodNotFound, "Tool not found"))
  {
  }

  /** The code answers the `notifications/initialized` notification with
      a null result and the id, although section 4.1 of the JSON-RPC 2.0
      Specification says a notification gets no reply. */
  lemma InitializedNotificationAnswered(id: Id, params: Params, db: Table)
    ensures HandleMcp(Call(id, "notifications/initialized", params), db) == Envelope(id, Result(NullResult))
  {
  }
}
