/** The hand-written clients (`MCP_scratch/basic_client.py` and
    `MCP_scratch/advanced_client.py`): each keeps a request-id counter and
    wraps one JSON-RPC 2.0 envelope per call. The HTTP post is the `post`
    argument, which may fail (a connection error) or return the server's
    reply. */
module ScratchClients {
  import opened Wrappers
  import opened ProteinDb
  import opened JsonRpc
  import ScratchBasicServer
  import ScratchAdvancedServer

  /** The envelope `_send_request` posts: version "2.0", the counter's id,
      the method, and `params` only when they are given and non-empty. */
  function Outgoing(id: int, name: string, params: Option<Params>): (r: Request)
    ensures r.jsonrpc == Some(Version) && r.id == IntId(id) && r.methodName == Some(name)
    ensures r.params.Some? <==> params.Some? && params.value != map[]
    ensures r.params.Some? ==> r.params == params
  {
    Request(Some(Version), IntId(id), Some(name), if params.Some? && params.value != map[] then params else None)
  }

  /** `{"uri": uri}`. */
  function UriParams(uri: string): Params {
    map["uri" := PStr(uri)]
  }

  /** `{"name": name, "arguments": arguments}`. */
  function ToolParams(name: string, arguments: map<string, string>): Params {
    map["name" := PStr(name), "arguments" := PObj(arguments)]
  }

  /** `{"name": name}`, with `"arguments"` only when they are non-empty. */
  function PromptParams(name: string, arguments: Option<map<string, string>>): (r: Params)
    ensures "name" in r && r["name"] == PStr(name)
    ensures "arguments" in r <==> arguments.Some? && arguments.value != map[]
    ensures "arguments" in r ==> r["arguments"] == PObj(arguments.value)
    ensures r.Keys <= {"name", "arguments"}
  {
    if arguments.Some? && arguments.value != map[] then map["name" := PStr(name), "arguments" := PObj(arguments.value)]
    else map["name" := PStr(name)]
  }

  /** The ids sent so far are 1, 2, ..., in order. */
  ghost predicate Numbered(sent: seq<int>) {
    forall i :: 0 <= i < |sent| ==> sent[i] == i + 1
  }

  /** Numbered ids strictly increase, so no id is sent twice. */
  lemma NumberedIncreasing(sent: seq<int>)
    requires Numbered(sent)
    ensures forall i, j :: 0 <= i < j < |sent| ==> sent[i] < sent[j]
  {
  }

  /** `MCPClient` (`basic_client.py`). */
  class McpClient {
    const serverUrl: string
    /** The id of the next request. */
    var requestId: int
    /** The ids of the envelopes built so far. */
    ghost var sent: seq<int>

    ghost predicate Valid()
      reads this
    {
      Numbered(sent) && requestId == |sent| + 1
    }

    constructor (serverUrl: string)
      ensures Valid() && this.serverUrl == serverUrl && requestId == 1 && sent == []
    {
      this.serverUrl := serverUrl;
      requestId := 1;
      sent := [];
    }

    /** `_send_request`: the counter moves on before the post, so a failed
        post still uses up its id. */
    method SendRequest(name: string, params: Option<Params>, post: Request -> Result<Reply>)
        returns (reply: Result<Reply>, request: Request)
      requires Valid()
      modifies this
      ensures Valid()
      ensures request == Outgoing(old(requestId), name, params)
      ensures requestId == old(requestId) + 1 && sent == old(sent) + [old(requestId)]
      ensures reply == post(request)
    {
      request := Outgoing(requestId, name, params);
      requestId := requestId + 1;
      sent := sent + [request.id.n];
      reply := post(request);
    }

    method Initialize(post: Request -> Result<Reply>) returns (reply: Result<Reply>, request: Request)
      requires Valid()
      modifies this
      ensures Valid() && requestId == old(requestId) + 1
      ensures request == Outgoing(old(requestId), "initialize", None) && reply == post(request)
    {
      reply, request := SendRequest("initialize", None, post);
    }

    method ListResources(post: Request -> Result<Reply>) returns (reply: Result<Reply>, request: Request)
      requires Valid()
      modifies this
      ensures Valid() && requestId == old(requestId) + 1
      ensures request == Outgoing(old(requestId), "resources/list", None) && reply == post(request)
    {
      reply, request := SendRequest("resources/list", None, post);
    }

    method ReadResource(uri: string, post: Request -> Result<Reply>) returns (reply: Result<Reply>, request: Request)
      requires Valid()
      modifies this
      ensures Valid() && requestId == old(requestId) + 1
      ensures request == Outgoing(old(requestId), "resources/read", Some(UriParams(uri))) && reply == post(request)
    {
      reply, request := SendRequest("resources/read", Some(UriParams(uri)), post);
    }

    method ListTools(post: Request -> Result<Reply>) returns (reply: Result<Reply>, request: Request)
      requires Valid()
      modifies this
      ensures Valid() && requestId == old(requestId) + 1
      ensures request == Outgoing(old(requestId), "tools/list", None) && reply == post(request)
    {
      reply, request := SendRequest("tools/list", None, post);
    }

    method CallTool(name: string, arguments: map<string, string>, post: Request -> Result<Reply>)
        returns (reply: Result<Reply>, request: Request)
      requires Valid()
      modifies this
      ensures Valid() && requestId == old(requestId) + 1
      ensures request == Outgoing(old(requestId), "tools/call", Some(ToolParams(name, arguments)))
      ensures reply == post(request)
    {
      reply, request := SendRequest("tools/call", Some(ToolParams(name, arguments)), post);
    }
  }

  /** `MCPAdvancedClient` (`advanced_client.py`). */
  class McpAdvancedClient {
    const serverUrl: string
    var requestId: int
    ghost var sent: seq<int>

    ghost predicate Valid()
      reads this
    {
      Numbered(sent) && requestId == |sent| + 1
    }

    constructor (serverUrl: string)
      ensures Valid() && this.serverUrl == serverUrl && requestId == 1 && sent == []
    {
      this.serverUrl := serverUrl;
      requestId := 1;
      sent := [];
    }

    method SendRequest(name: string, params: Option<Params>, post: Request -> Result<Reply>)
        returns (reply: Result<Reply>, request: Request)
      requires Valid()
      modifies this
      ensures Valid()
      ensures request == Outgoing(old(requestId), name, params)
      ensures requestId == old(requestId) + 1 && sent == old(sent) + [old(requestId)]
      ensures reply == post(request)
    {
      request := Outgoing(requestId, name, params);
      requestId := requestId + 1;
      sent := sent + [request.id.n];
      reply := post(request);
    }

    method Initialize(post: Request -> Result<Reply>) returns (reply: Result<Reply>, request: Request)
      requires Valid()
      modifies this
      ensures Valid() && requestId == old(requestId) + 1
      ensures request == Outgoing(old(requestId), "initialize", None) && reply == post(request)
    {
      reply, request := SendRequest("initialize", None, post);
    }

    method ListTools(post: Request -> Result<Reply>) returns (reply: Result<Reply>, request: Request)
      requires Valid()
      modifies this
      ensures Valid() && requestId == old(requestId) + 1
      ensures request == Outgoing(old(requestId), "tools/list", None) && reply == post(request)
    {
      reply, request := SendRequest("tools/list", None, post);
    }

    method CallTool(name: string, arguments: map<string, string>, post: Request -> Result<Reply>)
        returns (reply: Result<Reply>, request: Request)
      requires Valid()
      modifies this
      ensures Valid() && requestId == old(requestId) + 1
      ensures request == Outgoing(old(requestId), "tools/call", Some(ToolParams(name, arguments)))
      ensures reply == post(request)
    {
      reply, request := SendRequest("tools/call", Some(ToolParams(name, arguments)), post);
    }

    method ListPrompts(post: Request -> Result<Reply>) returns (reply: Result<Reply>, request: Request)
      requires Valid()
      modifies this
      ensures Valid() && requestId == old(requestId) + 1
      ensures request == Outgoing(old(requestId), "prompts/list", None) && reply == post(request)
    {
      reply, request := SendRequest("prompts/list", None, post);
    }

    method GetPrompt(name: string, arguments: Option<map<string, string>>, post: Request -> Result<Reply>)
        returns (reply: Result<Reply>, request: Request)
      requires Valid()
      modifies this
      ensures Valid() && requestId == old(requestId) + 1
      ensures request == Outgoing(old(requestId), "prompts/get", Some(PromptParams(name, arguments)))
      ensures reply == post(request)
    {
      var params := PromptParams(name, arguments);
      reply, request := SendRequest("prompts/get", Some(params), post);
    }
  }

  // ---------------------------------------------------------------------
  // What the clients send, as the servers read it
  // ---------------------------------------------------------------------

  /** A client's `initialize` gets the handshake back under its own id. */
  lemma InitializeAnsweredUnderOwnId(id: int, db: Table)
    ensures ScratchBasicServer.HandleMcp(Outgoing(id, "initialize", None), db)
            == Envelope(IntId(id), Result(ScratchBasicServer.ServerInfo))
    ensures ScratchAdvancedServer.HandleMcp(Outgoing(id, "initialize", None), db)
            == Envelope(IntId(id), Result(ScratchAdvancedServer.ServerInfo))
  {
  }

  /** `read_resource("protein://proteins")` reads the whole table. */
  lemma ReadResourceReadsTable(id: int, db: Table)
    ensures ScratchBasicServer.HandleMcp(Outgoing(id, "resources/read", Some(UriParams("protein://proteins"))), db)
            == Envelope(IntId(id), Result(ResourceContents("protein://proteins", "application/json", db)))
  {
  }

  /** `call_tool("get_protein_function", {"protein_id": pid})` against the
      basic server: the function text for a known protein with one, the
      -32602 naming the id for an unknown one. */
  lemma CallToolReachesTool(id: int, pid: string, db: Table)
    ensures var r := ScratchBasicServer.HandleMcp(
              Outgoing(id, "tools/call", Some(ToolParams("get_protein_function", map["protein_id" := pid]))), db);
            && (Has(db, pid) && "function" in At(db, pid) ==>
                  r == Envelope(IntId(id), Result(TextContent("Function of " + pid + ": " + Show(At(db, pid)["function"]), None))))
            && (!Has(db, pid) ==> r == Envelope(IntId(id), Error(InvalidParams, "Protein " + pid + " not found")))
  {
  }

  /** `get_prompt` without arguments reaches the prompt but names no
      protein, so the advanced server answers "Prompt not found". */
  lemma GetPromptWithoutArguments(id: int, db: Table)
    ensures ScratchAdvancedServer.HandleMcp(Outgoing(id, "prompts/get", Some(PromptParams("protein_analysis", None))), db)
            == Envelope(IntId(id), Error(MethodNotFound, "Prompt not found"))
  {
  }
}
