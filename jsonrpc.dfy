/** JSON-RPC 2.0 envelopes as the hand-written Flask servers and the
    `requests`-based clients exchange them, with the error codes reserved
    in section 5.1 of the JSON-RPC 2.0 Specification. */
module JsonRpc {
  import opened Wrappers
  import opened ProteinDb

  const Version := "2.0"
  const ProtocolVersion := "2024-11-05"

  const InvalidRequest := -32600
  const MethodNotFound := -32601
  const InvalidParams := -32602

  /** The `id` member; an absent id reads as `None` (null). */
  datatype Id = NullId | IntId(n: int) | StrId(s: string)

  /** A member of `params`: a string (`uri`, `name`) or an object of
      string arguments (`arguments`). */
  datatype Param = PStr(s: string) | PObj(fields: map<string, string>)

  type Params = map<string, Param>

  /** A request object; `None` marks a member that is absent. */
  datatype Request = Request(jsonrpc: Option<string>, id: Id, methodName: Option<string>, params: Option<Params>)

  /** A JSON-RPC 2.0 request for the named method with the given params. */
  function Call(id: Id, name: string, params: Params): Request {
    Request(Some(Version), id, Some(name), Some(params))
  }

  /** `data.get('params', {})`. */
  function ParamsOf(req: Request): Params {
    if req.params.Some? then req.params.value else map[]
  }

  /** `params.get(key) == text`. */
  predicate ParamIs(params: Params, key: string, text: string) {
    key in params && params[key] == PStr(text)
  }

  /** `params.get('arguments', {})`, or `None` when it is present but not
      an object (its `.get` would then raise). */
  function ArgumentsOf(params: Params): Option<map<string, string>> {
    if "arguments" !in params then Some(map[])
    else match params["arguments"]
      case PObj(m) => Some(m)
      case PStr(_) => None
  }

  /** `arguments.get(key)`. */
  function Arg(args: map<string, string>, key: string): Option<string> {
    if key in args then Some(args[key]) else None
  }

  // ---------------------------------------------------------------------
  // Replies of the Flask servers
  // ---------------------------------------------------------------------

  datatype ResourceInfo = ResourceInfo(uri: string, name: string, description: string, mimeType: string)

  /** A tool with one required string parameter. */
  datatype ToolInfo = ToolInfo(name: string, description: string, param: string, paramDescription: string)

  /** A prompt template with one argument. */
  datatype PromptInfo = PromptInfo(name: string, description: string, argName: string, argDescription: string, argRequired: bool)

  datatype ResultValue =
    | Initialized(protocolVersion: string, capabilities: seq<string>, resourcesListChanged: bool,
                  serverName: string, serverVersion: string)
    | ResourceList(resources: seq<ResourceInfo>)
      /** `contents: [{uri, mimeType, value: json.dumps(protein_db)}]`. */
    | ResourceContents(uri: string, mimeType: string, dump: Table)
    | ToolList(tools: seq<ToolInfo>)
      /** `content: [{type: "text", text}]`, with `isError` when present. */
    | TextContent(text: string, isError: Option<bool>)
    | PromptList(prompts: seq<PromptInfo>)
      /** `{description, messages: [{role, content: {type: "text", text}}]}`. */
    | PromptMessages(description: string, role: string, text: string)
    | NullResult

  datatype Body = Result(value: ResultValue) | Error(code: int, message: string)

  /** One `tools/call/progress` chunk of a stream; its progress is the
      fraction `step / total`. */
  datatype Chunk = Chunk(step: nat, total: nat, message: string)

  datatype Reply =
      /** `{"jsonrpc": "2.0", "id": id, "result" | "error": ...}`. */
    | Envelope(id: Id, body: Body)
      /** A `text/plain` stream of chunks (no envelope, no id); `aborted`
          when the generator raised before finishing. */
    | Stream(chunks: seq<Chunk>, aborted: bool)
      /** The handler raised: Flask answers HTTP 500 without an envelope. */
    | ServerError

  /** The reply to a request that is not JSON-RPC 2.0. */
  const InvalidRequestReply := Envelope(NullId, Error(InvalidRequest, "Invalid Request"))
}
