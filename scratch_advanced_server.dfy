/** The hand-written advanced MCP server (`MCP_scratch/advanced_server.py`):
    the basic dispatch plus prompts, a name search that answers "p53"
    with a disambiguation text (elicitation), a streamed analysis log, and
    a hypothesis prompt for the client's language model (sampling). The
    handler is a function of the request and the read-only table; the two
    loops of the source, the match search and the stream generator, are
    methods proved equal to the functions the handler uses. */
module ScratchAdvancedServer {
  import opened Wrappers
  import opened Text
  import opened OrderedDict
  import opened ProteinDb
  import opened JsonRpc

  const ProteinsUri := "protein://proteins"

  const Methods: set<string> :=
    {"initialize", "resources/list", "resources/read", "tools/list", "tools/call",
     "prompts/list", "prompts/get", "notifications/initialized"}

  const ServerInfo := Initialized(ProtocolVersion, ["resources", "tools", "logging", "prompts"], true,
                                  "Advanced Protein MCP Server", "1.0.0")

  const ProteinResource := ResourceInfo(ProteinsUri, "Protein Database",
                                        "Sample protein data with streaming capability", "application/json")

  const Tools := [
    ToolInfo("find_protein", "Find protein by name with disambiguation", "protein_name",
             "Protein name to search for"),
    ToolInfo("analyze_protein_stream", "Stream protein analysis in real-time", "protein_id",
             "Protein ID to analyze"),
    ToolInfo("get_protein_hypothesis", "Generate research hypothesis for a protein", "protein_id",
             "Protein ID")
  ]

  const AnalysisPrompt := PromptInfo("protein_analysis", "Generate comprehensive protein analysis",
                                     "protein_id", "ID of the protein to analyze", true)

  const P53Text :=
    "Multiple proteins match 'p53'. Please specify:\n- P53_HUMAN (Human p53)\n- P53_MOUSE (Mouse p53)"

  // ---------------------------------------------------------------------
  // find_protein: the match search
  // ---------------------------------------------------------------------

  /** "{id}: {name} ({organism})". */
  function MatchLine(pid: string, info: Record): string
    requires "name" in info && "organism" in info
  {
    pid + ": " + Show(info["name"]) + " (" + Show(info["organism"]) + ")"
  }

  /** The lines the search loop appends over `entries`, in order; `None`
      when it raises on the way (a record without a string `name`, or a
      matching record without `organism`). */
  function MatchLines(entries: seq<(string, Record)>, query: string): Option<seq<string>>
    decreases |entries|
  {
    if entries == [] then Some([])
    else
      var prev := MatchLines(entries[..|entries| - 1], query);
      var (pid, info) := entries[|entries| - 1];
      if prev.None? || "name" !in info || !info["name"].Str? then None
      else if !Contains(Lower(info["name"].s), query) then prev
      else if "organism" !in info then None
      else Some(prev.value + [MatchLine(pid, info)])
  }

  /** Once the search raises, it does not recover. */
  lemma {:induction false} MatchLinesRaiseStops(entries: seq<(string, Record)>, query: string, i: nat)
    requires i <= |entries| && MatchLines(entries[..i], query).None?
    ensures MatchLines(entries, query).None?
    decreases |entries| - i
  {
    if i < |entries| {
      assert entries[..i + 1][..i] == entries[..i];
      MatchLinesRaiseStops(entries, query, i + 1);
    } else {
      assert entries[..i] == entries;
    }
  }

  /** The search loop of lines 164-167. */
  method CollectMatches(db: Table, query: string) returns (matches: Option<seq<string>>)
    ensures matches == MatchLines(db, query)
  {
    var found: seq<string> := [];
    for i := 0 to |db|
      invariant MatchLines(db[..i], query) == Some(found)
    {
      assert db[..i + 1][..i] == db[..i];
      var (pid, info) := db[i];
      if "name" !in info || !info["name"].Str? {
        MatchLinesRaiseStops(db, query, i + 1);
        return None;
      }
      if Contains(Lower(info["name"].s), query) {
        if "organism" !in info {
          MatchLinesRaiseStops(db, query, i + 1);
          return None;
        }
        found := found + [MatchLine(pid, info)];
      }
    }
    assert db[..|db|] == db;
    return Some(found);
  }

  /** Every record has a string name and an organism. */
  predicate WellFormed(entries: seq<(string, Record)>) {
    forall i :: 0 <= i < |entries| ==>
      "name" in entries[i].1 && entries[i].1["name"].Str? && "organism" in entries[i].1
  }

  /** The line of each entry, in order. */
  function MatchLinesOf(entries: seq<(string, Record)>): (r: seq<string>)
    requires WellFormed(entries)
    ensures |r| == |entries|
    ensures forall k :: 0 <= k < |entries| ==> r[k] == MatchLine(entries[k].0, entries[k].1)
  {
    seq(|entries|, k requires 0 <= k < |entries| => MatchLine(entries[k].0, entries[k].1))
  }

  /** The matching entries of a well-formed table are well formed. */
  lemma MatchingWellFormed(entries: seq<(string, Record)>, query: string)
    requires WellFormed(entries)
    ensures WellFormed(Matching(entries, query))
  {
    var m := Matching(entries, query);
    forall k | 0 <= k < |m|
      ensures "name" in m[k].1 && m[k].1["name"].Str? && "organism" in m[k].1
    {
      var i :| 0 <= i < |entries| && entries[i] == m[k];
    }
  }

  /** Over a well-formed table the search lists exactly the matching
      entries, one line each, in table order. */
  lemma {:induction false} MatchLinesListsMatching(entries: seq<(string, Record)>, query: string)
    requires WellFormed(entries)
    ensures var m := Matching(entries, query);
            MatchLines(entries, query).Some?
            && |MatchLines(entries, query).value| == |m|
            && (forall k :: 0 <= k < |m| ==>
                  "name" in m[k].1 && "organism" in m[k].1
                  && MatchLines(entries, query).value[k] == MatchLine(m[k].0, m[k].1))
    decreases |entries|
  {
    if entries != [] {
      var init := entries[..|entries| - 1];
      assert WellFormed(init) by {
        forall i | 0 <= i < |init| ensures "name" in init[i].1 && init[i].1["name"].Str? && "organism" in init[i].1 {
          assert init[i] == entries[i];
        }
      }
      MatchLinesListsMatching(init, query);
    }
  }

  /** The empty query matches every entry whose name is a string. */
  lemma {:induction false} EmptyQueryMatchesAll(entries: seq<(string, Record)>)
    requires WellFormed(entries)
    ensures Matching(entries, "") == entries
    decreases |entries|
  {
    if entries != [] {
      var init := entries[..|entries| - 1];
      assert WellFormed(init) by {
        forall i | 0 <= i < |init| ensures "name" in init[i].1 && init[i].1["name"].Str? && "organism" in init[i].1 {
          assert init[i] == entries[i];
        }
      }
      EmptyQueryMatchesAll(init);
      EmptyIsContained(Lower(entries[|entries| - 1].1["name"].s));
    }
  }

  function Bullets(lines: seq<string>): (r: seq<string>)
    ensures |r| == |lines|
    ensures forall k :: 0 <= k < |lines| ==> r[k] == "- " + lines[k]
  {
    if lines == [] then [] else ["- " + lines[0]] + Bullets(lines[1..])
  }

  /** `find_protein` under `tools/call`. */
  function FindProtein(id: Id, args: map<string, string>, db: Table): (r: Reply)
    ensures (r.Envelope? && r.id == id) || r.ServerError?
    ensures r.ServerError? ==> !WellFormed(db)
    ensures r.Envelope? && r.body.Error? ==> r.body == Error(InvalidParams, "No proteins found")
  {
    var name := Lower(if "protein_name" in args then args["protein_name"] else "");
    if name == "p53" then
      Envelope(id, Result(TextContent(P53Text, Some(false))))
    else
      assert WellFormed(db) ==> MatchLines(db, name).Some? by {
        if WellFormed(db) { MatchLinesListsMatching(db, name); }
      }
      match MatchLines(db, name)
      case None => ServerError
      case Some(matches) =>
        if matches != [] then
          Envelope(id, Result(TextContent("Found " + NatToString(|matches|) + " proteins:\n"
                                          + Join("\n", Bullets(matches)), None)))
        else
          Envelope(id, Error(InvalidParams, "No proteins found"))
  }

  // ---------------------------------------------------------------------
  // analyze_protein_stream: the stream generator
  // ---------------------------------------------------------------------

  /** The chunks the generator yields for the first lines of a log of
      `total` lines: one per non-blank line, numbered by the line's
      position (blank lines still count). */
  function StreamChunks(lines: seq<string>, total: nat): seq<Chunk>
    decreases |lines|
  {
    if lines == [] then []
    else
      var prev := StreamChunks(lines[..|lines| - 1], total);
      var line := lines[|lines| - 1];
      if IsBlank(line) then prev else prev + [Chunk(|lines|, total, line)]
  }

  /** `generate_stream`'s loop over the log lines (lines 203-218). */
  method GenerateStream(lines: seq<string>) returns (chunks: seq<Chunk>)
    ensures chunks == StreamChunks(lines, |lines|)
  {
    chunks := [];
    for i := 0 to |lines|
      invariant chunks == StreamChunks(lines[..i], |lines|)
    {
      assert lines[..i + 1][..i] == lines[..i];
      var line := lines[i];
      if Strip(line) != "" {
        chunks := chunks + [Chunk(i + 1, |lines|, line)];
      }
    }
    assert lines[..|lines|] == lines;
  }

  /** The number of non-blank lines. */
  function CountNonBlank(lines: seq<string>): nat
    decreases |lines|
  {
    if lines == [] then 0
    else CountNonBlank(lines[..|lines| - 1]) + (if IsBlank(lines[|lines| - 1]) then 0 else 1)
  }

  /** One chunk per non-blank line; each chunk carries its own line, a
      position within the log and the constant total. */
  lemma {:induction false} StreamChunksCarryLines(lines: seq<string>, total: nat)
    ensures var c := StreamChunks(lines, total);
            && |c| == CountNonBlank(lines)
            && forall k :: 0 <= k < |c| ==>
                 1 <= c[k].step <= |lines| && c[k].total == total
                 && c[k].message == lines[c[k].step - 1] && !IsBlank(c[k].message)
    decreases |lines|
  {
    if lines != [] {
      var init := lines[..|lines| - 1];
      StreamChunksCarryLines(init, total);
      var prev := StreamChunks(init, total);
      var c := StreamChunks(lines, total);
      forall k | 0 <= k < |prev|
        ensures c[k] == prev[k] && prev[k].message == lines[prev[k].step - 1]
      {
        assert init[prev[k].step - 1] == lines[prev[k].step - 1];
      }
    }
  }

  /** The chunks come in line order: steps strictly increase. */
  lemma {:induction false} StreamChunksOrdered(lines: seq<string>, total: nat)
    ensures var c := StreamChunks(lines, total);
            forall k, l :: 0 <= k < l < |c| ==> c[k].step < c[l].step
    decreases |lines|
  {
    if lines != [] {
      var init := lines[..|lines| - 1];
      StreamChunksOrdered(init, total);
      StreamChunksCarryLines(init, total);
    }
  }

  /** Every non-blank line has its chunk. */
  lemma {:induction false} StreamChunksComplete(lines: seq<string>, total: nat, i: int)
    requires 0 <= i < |lines| && !IsBlank(lines[i])
    ensures exists k :: 0 <= k < |StreamChunks(lines, total)| && StreamChunks(lines, total)[k].step == i + 1
    decreases |lines|
  {
    var init := lines[..|lines| - 1];
    var prev := StreamChunks(init, total);
    var c := StreamChunks(lines, total);
    if i < |init| {
      assert init[i] == lines[i];
      StreamChunksComplete(init, total, i);
      var k :| 0 <= k < |prev| && prev[k].step == i + 1;
      assert c[k] == prev[k];
    } else {
      assert c[|c| - 1].step == i + 1;
    }
  }

  /** What `analyze_protein_stream` streams for a known id: the lines of
      `protein.get('log', '')`, or an aborted stream when the log is a
      list (a list has no `split`). */
  function StreamReply(info: Record): (r: Reply)
    ensures r.Stream?
    ensures r.aborted <==> "log" in info && info["log"].Lines?
    ensures r.aborted ==> r.chunks == []
    ensures "log" !in info ==> r.chunks == []
  {
    assert Split("", '\n') == [""] && IsBlank("");
    if "log" !in info then Stream(StreamChunks(Split("", '\n'), 1), false)
    else match info["log"]
      case Str(text) =>
        var lines := Split(text, '\n');
        Stream(StreamChunks(lines, |lines|), false)
      case Lines(_) => Stream([], true)
  }

  // ---------------------------------------------------------------------
  // get_protein_hypothesis and prompts/get
  // ---------------------------------------------------------------------

  predicate Described(info: Record) {
    "name" in info && "organism" in info && "function" in info
  }

  function HypothesisPrompt(info: Record): string
    requires Described(info)
  {
    "PROMPT FOR LLM: Based on this protein information, generate a novel research hypothesis.\n\nProtein: "
    + Show(info["name"]) + "\nOrganism: " + Show(info["organism"]) + "\nFunction: "
    + Show(info["function"]) + "\n\nHypothesis:"
  }

  function AnalysisText(info: Record): string
    requires Described(info)
  {
    "Analyze this protein and provide insights:\n\nName: " + Show(info["name"]) + "\nOrganism: "
    + Show(info["organism"]) + "\nFunction: " + Show(info["function"])
  }

  /** `tools/call`: the three tools, and -32601 for any other name. */
  function CallTool(id: Id, params: Params, db: Table): (r: Reply)
    ensures (r.Envelope? && r.id == id) || r.Stream? || r.ServerError?
    ensures r.Stream? ==> ParamIs(params, "name", "analyze_protein_stream")
    ensures (!ParamIs(params, "name", "find_protein") && !ParamIs(params, "name", "analyze_protein_stream")
             && !ParamIs(params, "name", "get_protein_hypothesis"))
            ==> r == Envelope(id, Error(MethodNotFound, "Tool not found"))
  {
    var args := ArgumentsOf(params);
    if ParamIs(params, "name", "find_protein") then
      if args.None? then ServerError else FindProtein(id, args.value, db)
    else if ParamIs(params, "name", "analyze_protein_stream") then
      if args.None? then ServerError
      else
        var pid := Arg(args.value, "protein_id");
        if pid.None? || !Has(db, pid.value) then Envelope(id, Error(InvalidParams, "Protein not found"))
        else StreamReply(At(db, pid.value))
    else if ParamIs(params, "name", "get_protein_hypothesis") then
      if args.None? then ServerError
      else
        var pid := Arg(args.value, "protein_id");
        if pid.None? || !Has(db, pid.value) then Envelope(id, Error(InvalidParams, "Protein not found"))
        else if !Described(At(db, pid.value)) then ServerError
        else Envelope(id, Result(TextContent(HypothesisPrompt(At(db, pid.value)), None)))
    else
      Envelope(id, Error(MethodNotFound, "Tool not found"))
  }

  /** `prompts/get`: the `protein_analysis` template for a known id;
      -32601 for any other prompt or id. */
  function GetPrompt(id: Id, params: Params, db: Table): (r: Reply)
    ensures (r.Envelope? && r.id == id) || r.ServerError?
    ensures r.Envelope? && r.body.Result? ==>
              && ParamIs(params, "name", "protein_analysis") && ArgumentsOf(params).Some?
              && Arg(ArgumentsOf(params).value, "protein_id").Some?
              && Has(db, Arg(ArgumentsOf(params).value, "protein_id").value)
              && Described(At(db, Arg(ArgumentsOf(params).value, "protein_id").value))
    ensures r.Envelope? && r.body.Error? ==> r.body == Error(MethodNotFound, "Prompt not found")
  {
    if ParamIs(params, "name", "protein_analysis") then
      match ArgumentsOf(params)
      case None => ServerError
      case Some(args) =>
        var pid := Arg(args, "protein_id");
        if pid.Some? && Has(db, pid.value) then
          var info := At(db, pid.value);
          if !Described(info) then ServerError
          else Envelope(id, Result(PromptMessages("Analysis of " + Show(info["name"]), "user", AnalysisText(info))))
        else Envelope(id, Error(MethodNotFound, "Prompt not found"))
    else
      Envelope(id, Error(MethodNotFound, "Prompt not found"))
  }

  /** `handle_mcp`: -32600 with a null id for a request that is not
      JSON-RPC 2.0; otherwise an envelope echoing the id, a stream, or a
      server error; -32601 for a method the server does not route. */
  function HandleMcp(req: Request, db: Table): (r: Reply)
    ensures req.jsonrpc != Some(Version) ==> r == InvalidRequestReply
    ensures req.jsonrpc == Some(Version) ==> (r.Envelope? && r.id == req.id) || r.Stream? || r.ServerError?
    ensures req.jsonrpc == Some(Version) && (req.methodName.None? || req.methodName.value !in Methods) ==>
              r == Envelope(req.id, Error(MethodNotFound, "Method not found"))
    ensures r.Stream? || r.ServerError? ==> req.methodName in {Some("tools/call"), Some("prompts/get")}
  {
    if req.jsonrpc != Some(Version) then InvalidRequestReply
    else
      var params := ParamsOf(req);
      var id := req.id;
      if req.methodName == Some("initialize") then
        Envelope(id, Result(ServerInfo))
      else if req.methodName == Some("resources/list") then
        Envelope(id, Result(ResourceList([ProteinResource])))
      else if req.methodName == Some("resources/read") then
        if ParamIs(params, "uri", ProteinsUri) then
          Envelope(id, Result(ResourceContents(ProteinsUri, "application/json", db)))
        else
          Envelope(id, Error(MethodNotFound, "Resource not found"))
      else if req.methodName == Some("tools/list") then
        Envelope(id, Result(ToolList(Tools)))
      else if req.methodName == Some("tools/call") then
        CallTool(id, params, db)
      else if req.methodName == Some("prompts/list") then
        Envelope(id, Result(PromptList([AnalysisPrompt])))
      else if req.methodName == Some("prompts/get") then
        GetPrompt(id, params, db)
      else if req.methodName == Some("notifications/initialized") then
        Envelope(id, Result(NullResult))
      else
        Envelope(id, Error(MethodNotFound, "Method not found"))
  }

  // ---------------------------------------------------------------------
  // Properties of the dispatch
  // ---------------------------------------------------------------------

  /** A `tools/call` of `tool` with the given string arguments. */
  function ToolCall(id: Id, tool: string, args: map<string, string>): Request {
    Call(id, "tools/call", map["name" := PStr(tool), "arguments" := PObj(args)])
  }

  /** `resources/read` returns the table exactly for `protein://proteins`. */
  lemma ReadResourceOnlyProteins(id: Id, params: Params, db: Table)
    ensures var r := HandleMcp(Call(id, "resources/read", params), db);
            (r.Envelope? && r.body.Result?) <==> ParamIs(params, "uri", ProteinsUri)
    ensures var r := HandleMcp(Call(id, "resources/read", params), db);
            !ParamIs(params, "uri", ProteinsUri) ==> r == Envelope(id, Error(MethodNotFound, "Resource not found"))
  {
  }

  /** A tool name other than the three gets -32601. */
  lemma UnknownTool(id: Id, params: Params, db: Table)
    requires !ParamIs(params, "name", "find_protein") && !ParamIs(params, "name", "analyze_protein_stream")
             && !ParamIs(params, "name", "get_protein_hypothesis")
    ensures HandleMcp(Call(id, "tools/call", params), db) == Envelope(id, Error(MethodNotFound, "Tool not found"))
  {
  }

  /** A name that lowers to "p53" gets the two-option disambiguation,
      whatever the table holds. */
  lemma FindP53Disambiguates(id: Id, name: string, db: Table)
    requires Lower(name) == "p53"
    ensures HandleMcp(ToolCall(id, "find_protein", map["protein_name" := name]), db)
            == Envelope(id, Result(TextContent(P53Text, Some(false))))
  {
  }

  /** Any other name over a well-formed table: the count and the lines of
      exactly the matching entries, in table order; -32602 when none
      match. */
  lemma FindListsMatches(id: Id, name: string, db: Table)
    requires Lower(name) != "p53" && WellFormed(db)
    ensures WellFormed(Matching(db, Lower(name)))
    ensures var m := Matching(db, Lower(name));
            var r := HandleMcp(ToolCall(id, "find_protein", map["protein_name" := name]), db);
            && (m == [] ==> r == Envelope(id, Error(InvalidParams, "No proteins found")))
            && (m != [] ==> r == Envelope(id, Result(TextContent("Found " + NatToString(|m|) + " proteins:\n"
                                                                 + Join("\n", Bullets(MatchLinesOf(m))), None))))
  {
    ToolDispatch(id, "find_protein", map["protein_name" := name], db);
    FindTool(id, map["protein_name" := name], db);
    FindReply(id, name, db);
  }

  /** One unfolding step: the `find_protein` tool reaches `FindProtein`. */
  lemma FindTool(id: Id, args: map<string, string>, db: Table)
    ensures CallTool(id, map["name" := PStr("find_protein"), "arguments" := PObj(args)], db) == FindProtein(id, args, db)
  {
    var params := map["name" := PStr("find_protein"), "arguments" := PObj(args)];
    assert ParamIs(params, "name", "find_protein") && ArgumentsOf(params) == Some(args);
  }

  /** `FindListsMatches` for the `find_protein` branch of the dispatch. */
  lemma FindReply(id: Id, name: string, db: Table)
    requires Lower(name) != "p53" && WellFormed(db)
    ensures WellFormed(Matching(db, Lower(name)))
    ensures var m := Matching(db, Lower(name));
            var r := FindProtein(id, map["protein_name" := name], db);
            && (m == [] ==> r == Envelope(id, Error(InvalidParams, "No proteins found")))
            && (m != [] ==> r == Envelope(id, Result(TextContent("Found " + NatToString(|m|) + " proteins:\n"
                                                                 + Join("\n", Bullets(MatchLinesOf(m))), None))))
  {
    var m := Matching(db, Lower(name));
    MatchingWellFormed(db, Lower(name));
    MatchLinesListsMatching(db, Lower(name));
    var lines := MatchLines(db, Lower(name)).value;
    assert lines == MatchLinesOf(m);
    FoundOrNone(id, map["protein_name" := name], db, lines);
  }

  /** One unfolding step: `tools/call` reaches `CallTool`. */
  lemma ToolDispatch(id: Id, tool: string, args: map<string, string>, db: Table)
    ensures HandleMcp(ToolCall(id, tool, args), db)
            == CallTool(id, map["name" := PStr(tool), "arguments" := PObj(args)], db)
  {
    assert "tools/call"[0] != "initialize"[0] && "tools/call"[6] != "tools/list"[6];
  }

  /** One unfolding step: `prompts/get` reaches `GetPrompt`. */
  lemma PromptDispatch(id: Id, params: Params, db: Table)
    ensures HandleMcp(Call(id, "prompts/get", params), db) == GetPrompt(id, params, db)
  {
    var req := Call(id, "prompts/get", params);
    assert req.jsonrpc == Some(Version) && req.methodName == Some("prompts/get") && ParamsOf(req) == params;
  }

  lemma FoundOrNone(id: Id, args: map<string, string>, db: Table, lines: seq<string>)
    requires "protein_name" in args && Lower(args["protein_name"]) != "p53"
    requires MatchLines(db, Lower(args["protein_name"])) == Some(lines)
    ensures FindProtein(id, args, db)
            == if lines == [] then Envelope(id, Error(InvalidParams, "No proteins found"))
               else Envelope(id, Result(TextContent("Found " + NatToString(|lines|) + " proteins:\n"
                                                    + Join("\n", Bullets(lines)), None)))
  {
  }

  /** The stream and hypothesis tools reject an unknown id with -32602. */
  lemma UnknownIdTools(id: Id, pid: string, db: Table)
    requires !Has(db, pid)
    ensures HandleMcp(ToolCall(id, "analyze_protein_stream", map["protein_id" := pid]), db)
            == Envelope(id, Error(InvalidParams, "Protein not found"))
    ensures HandleMcp(ToolCall(id, "get_protein_hypothesis", map["protein_id" := pid]), db)
            == Envelope(id, Error(InvalidParams, "Protein not found"))
  {
    var args := map["protein_id" := pid];
    assert Arg(args, "protein_id") == Some(pid);
    assert HandleMcp(ToolCall(id, "analyze_protein_stream", args), db)
           == Envelope(id, Error(InvalidParams, "Protein not found")) by {
      ToolDispatch(id, "analyze_protein_stream", args, db);
      var params := map["name" := PStr("analyze_protein_stream"), "arguments" := PObj(args)];
      assert ArgumentsOf(params) == Some(args) && !ParamIs(params, "name", "find_protein");
    }
    assert HandleMcp(ToolCall(id, "get_protein_hypothesis", args), db)
           == Envelope(id, Error(InvalidParams, "Protein not found")) by {
      ToolDispatch(id, "get_protein_hypothesis", args, db);
      var params := map["name" := PStr("get_protein_hypothesis"), "arguments" := PObj(args)];
      assert "get_protein_hypothesis"[0] != "analyze_protein_stream"[0];
      assert ArgumentsOf(params) == Some(args) && !ParamIs(params, "name", "find_protein");
    }
  }

  /** `prompts/get` rejects an unknown id with -32601. */
  lemma UnknownIdPrompt(id: Id, pid: string, db: Table)
    requires !Has(db, pid)
    ensures HandleMcp(Call(id, "prompts/get", map["name" := PStr("protein_analysis"),
                                                  "arguments" := PObj(map["protein_id" := pid])]), db)
            == Envelope(id, Error(MethodNotFound, "Prompt not found"))
  {
    var params := map["name" := PStr("protein_analysis"), "arguments" := PObj(map["protein_id" := pid])];
    PromptDispatch(id, params, db);
    assert ArgumentsOf(params) == Some(map["protein_id" := pid]);
  }

  /** The hypothesis tool and the analysis prompt for a known id: the
      prompt text built from the record's name, organism and function, or
      a server error when one of them is missing. */
  lemma HypothesisOfKnownProtein(id: Id, pid: string, db: Table)
    requires Has(db, pid)
    ensures var r := HandleMcp(ToolCall(id, "get_protein_hypothesis", map["protein_id" := pid]), db);
            && (Described(At(db, pid)) ==> r == Envelope(id, Result(TextContent(HypothesisPrompt(At(db, pid)), None))))
            && (!Described(At(db, pid)) ==> r == ServerError)
  {
    ToolDispatch(id, "get_protein_hypothesis", map["protein_id" := pid], db);
    HypothesisTool(id, pid, db);
  }

  lemma HypothesisTool(id: Id, pid: string, db: Table)
    requires Has(db, pid)
    ensures CallTool(id, map["name" := PStr("get_protein_hypothesis"), "arguments" := PObj(map["protein_id" := pid])], db)
            == if Described(At(db, pid)) then Envelope(id, Result(TextContent(HypothesisPrompt(At(db, pid)), None)))
               else ServerError
  {
    var args := map["protein_id" := pid];
    var params := map["name" := PStr("get_protein_hypothesis"), "arguments" := PObj(args)];
    assert ArgumentsOf(params) == Some(args) && Arg(args, "protein_id") == Some(pid);
    assert "get_protein_hypothesis"[0] != "analyze_protein_stream"[0];
    assert !ParamIs(params, "name", "find_protein") && !ParamIs(params, "name", "analyze_protein_stream");
  }

  lemma AnalysisPromptOfKnownProtein(id: Id, pid: string, db: Table)
    requires Has(db, pid)
    ensures var r := HandleMcp(Call(id, "prompts/get", map["name" := PStr("protein_analysis"),
                                                           "arguments" := PObj(map["protein_id" := pid])]), db);
            && (Described(At(db, pid)) ==>
                  r == Envelope(id, Result(PromptMessages("Analysis of " + Show(At(db, pid)["name"]), "user",
                                                          AnalysisText(At(db, pid))))))
            && (!Described(At(db, pid)) ==> r == ServerError)
  {
    var args := map["protein_id" := pid];
    var params := map["name" := PStr("protein_analysis"), "arguments" := PObj(args)];
    PromptDispatch(id, params, db);
    assert ArgumentsOf(params) == Some(args) && Arg(args, "protein_id") == Some(pid);
  }

  /** For a known id with a string log, the stream has one chunk per
      non-blank line of the log, in order, each numbered by its line's
      position out of all the log's lines. */
  lemma StreamOfKnownProtein(id: Id, pid: string, db: Table)
    requires Has(db, pid) && "log" in At(db, pid) && At(db, pid)["log"].Str?
    ensures var lines := Split(At(db, pid)["log"].s, '\n');
            HandleMcp(ToolCall(id, "analyze_protein_stream", map["protein_id" := pid]), db)
            == Stream(StreamChunks(lines, |lines|), false)
  {
    ToolDispatch(id, "analyze_protein_stream", map["protein_id" := pid], db);
    StreamTool(id, pid, db);
  }

  lemma StreamTool(id: Id, pid: string, db: Table)
    requires Has(db, pid)
    ensures CallTool(id, map["name" := PStr("analyze_protein_stream"), "arguments" := PObj(map["protein_id" := pid])], db)
            == StreamReply(At(db, pid))
  {
    var args := map["protein_id" := pid];
    var params := map["name" := PStr("analyze_protein_stream"), "arguments" := PObj(args)];
    assert ArgumentsOf(params) == Some(args) && Arg(args, "protein_id") == Some(pid);
    assert !ParamIs(params, "name", "find_protein");
  }
}
