# Protein MCP workshop: a Dafny model

This project models the Model Context Protocol (MCP, protocol version
"2024-11-05") parts of the SciLifeLab agent workshop, and the identifier
handling at the front of its chemical annotator.

The MCP side is a small server and client exchange over JSON-RPC 2.0, built
around a read-only protein table (`protein_db.json`). It covers:

- **Hand-written Flask servers** (`MCP_scratch/basic_server.py`,
  `MCP_scratch/advanced_server.py`). `handle_mcp` routes one request
  envelope to one reply. The model is a pure function `HandleMcp` from a
  `Request` and the table to a `Reply`. Its two loops are modelled as
  methods: the name search and the stream generator. Each is proved equal to
  the function the handler uses.
- **FastMCP servers** (`mcp_basic_server.py`, `mcp_advanced_server.py`,
  `postman_mcp_basic_server.py`). The three read-only handlers
  (`dataset_overview`, `get_protein`, `get_protein_function`) are the same
  in all three files apart from `dataset_overview`'s encoding. They are modelled once, in
  `SdkResources`. The advanced server's state is the class
  `SdkAdvancedServer.Server`:
  - the client registry `registered_clients`, an insertion-ordered dict;
  - the sampling-callback ledger `pending_callbacks`;
  - the tools that read or change them.
- **Hand-written clients** (`MCP_scratch/basic_client.py`,
  `MCP_scratch/advanced_client.py`). These are classes with a request-id
  counter that build one envelope per call. The HTTP post is an oracle
  argument.
- **FastMCP clients** (`mcp_advanced_client.py`, `mcp_basic_client.py`):
  - how a tool result is read;
  - how an elicitation is answered and followed up;
  - how a sampling request is completed and submitted back;
  - how content items are flattened to text.

  The session's `call_tool`, `json.loads`, the OpenAI completion and UTF-8
  decoding are oracle arguments.
- **Chemical identifier classifier**
  (`Section_1_LangGraph/utils/chemical_annotator/tools.py`). It covers
  `_looks_like_smiles` and `_infer_identifier_kind`, the normalisation of
  the `compounds` argument, and the per-identifier resolution loop. The
  resolver is an oracle. It also covers the KEGG id / pathway extension
  loop and its first-occurrence de-duplication. The pathway lookup is an
  oracle.

Python behaviour that the code relies on is modelled explicitly:

- **Dict order and overwrites.** Dict iteration order is modelled with
  `OrderedDict.Dict`. An assignment to an existing key keeps the key's
  place.
- **String operations.** `str.lower` is modelled as ASCII, `str.strip` as
  Python whitespace, `in` on strings as `Text.Contains`, and
  `split`/`join` as `Text.Split`/`Text.Join`.
- **Sorting.** `sorted` uses code-point order, in `StringOrder.Sort`.
- **Exceptions.** A Flask handler that raises answers HTTP 500, modelled as
  `Reply.ServerError`. A FastMCP tool that raises is modelled as
  `Err(str(exception))`.

Module layout: `Wrappers`, `Text`, `StringOrder`, `OrderedDict`,
`ProteinDb`, `JsonValue`, `JsonRpc`, `ScratchBasicServer`,
`ScratchAdvancedServer`, `SdkResources`, `SdkAdvancedServer`,
`ScratchClients`, `SdkClients`, `ChemicalIds`. There is one module per file.

## Model

| member | source | states |
|---|---|---|
| ScratchBasicServer.HandleMcp | Section_2_MCP/MCP_scratch/basic_server.py:10-140 | a request whose `jsonrpc` is not "2.0" (or absent) gets -32600 with a null id; every other reply is an envelope carrying the request's id or a server error; a missing or unrouted method gets -32601 "Method not found"; a server error can only come from `tools/call` |
| ScratchBasicServer.FunctionCallRoute | Section_2_MCP/MCP_scratch/basic_server.py:99-104 | a `tools/call` of `get_protein_function` whose arguments are an object is answered exactly as `ProteinFunction` answers those arguments |
| ScratchBasicServer.ProteinFunction | Section_2_MCP/MCP_scratch/basic_server.py:103-120 | `get_protein_function`: a known protein with a function gets "Function of {id}: {function}" as text under the request id; a known protein without one raises; any other id, a missing one included, gets -32602 "Protein {id} not found" |
| ScratchBasicServer.InitializeHandshake | Section_2_MCP/MCP_scratch/basic_server.py:26-42 | `initialize`, whatever its params, is answered under the request's id with protocol version "2024-11-05", the capabilities resources, tools and logging (no `listChanged` flag), and server "Protein MCP Server" version "1.0.0" |
| ScratchBasicServer.ReadResourceOnlyProteins | Section_2_MCP/MCP_scratch/basic_server.py:59-77 | `resources/read` returns the whole table exactly when `uri` is "protein://proteins"; any other or missing uri gets -32601 "Resource not found" |
| ScratchBasicServer.FunctionOfKnownProtein | Section_2_MCP/MCP_scratch/basic_server.py:103-115 | `get_protein_function` on a known id whose record has a function answers "Function of {id}: {function}" |
| ScratchBasicServer.FunctionOfUnknownProtein | Section_2_MCP/MCP_scratch/basic_server.py:116-120 | on an id not in the table it answers -32602 "Protein {id} not found" |
| ScratchBasicServer.UnknownTool | Section_2_MCP/MCP_scratch/basic_server.py:122-126 | any tool name other than `get_protein_function` gets -32601 "Tool not found" |
| ScratchBasicServer.InitializedNotificationAnswered | Section_2_MCP/MCP_scratch/basic_server.py:128-134 | `notifications/initialized` is answered with a null result under the request's id |
| ScratchAdvancedServer.HandleMcp | Section_2_MCP/MCP_scratch/advanced_server.py:24-314 | -32600 with a null id for a request that is not JSON-RPC 2.0; otherwise an envelope echoing the id, a stream or a server error; -32601 "Method not found" for a method outside the eight it routes; streams and server errors only from `tools/call` and `prompts/get` |
| ScratchAdvancedServer.ReadResourceOnlyProteins | Section_2_MCP/MCP_scratch/advanced_server.py:77-95 | `resources/read` succeeds exactly for "protein://proteins", and answers -32601 "Resource not found" for every other uri |
| ScratchAdvancedServer.UnknownTool | Section_2_MCP/MCP_scratch/advanced_server.py:247-251 | a tool name other than the three gets -32601 "Tool not found" |
| ScratchAdvancedServer.CallTool | Section_2_MCP/MCP_scratch/advanced_server.py:141-251 | `tools/call`: an envelope under the request id, a stream or a server error; only `analyze_protein_stream` streams; a name other than the three tools gets -32601 "Tool not found" |
| ScratchAdvancedServer.FindProtein | Section_2_MCP/MCP_scratch/advanced_server.py:146-185 | `find_protein`: an envelope under the request id or a server error, and a server error only over a table with a malformed record; the only error envelope is -32602 "No proteins found" |
| ScratchAdvancedServer.StreamReply | Section_2_MCP/MCP_scratch/advanced_server.py:199-220 | the reply is a stream; it is aborted, with no chunks, exactly when the log is a list; a record without a log streams nothing |
| ScratchAdvancedServer.GetPrompt | Section_2_MCP/MCP_scratch/advanced_server.py:271-298 | `prompts/get`: an envelope under the request id or a server error; a result only for `protein_analysis` with a known, fully described `protein_id`; the only error envelope is -32601 "Prompt not found" |
| ScratchAdvancedServer.FindP53Disambiguates | Section_2_MCP/MCP_scratch/advanced_server.py:146-161 | a name that lowercases to "p53" gets the two-option text (P53_HUMAN, P53_MOUSE) whatever the table holds |
| ScratchAdvancedServer.CollectMatches | Section_2_MCP/MCP_scratch/advanced_server.py:164-167 | the search loop yields the match lines of `MatchLines`, or `None` when it raises on a record without a string name or a matching record without an organism |
| ScratchAdvancedServer.MatchLinesRaiseStops | Section_2_MCP/MCP_scratch/advanced_server.py:165-167 | once the search raises on a prefix of the table it raises on the whole table |
| ScratchAdvancedServer.MatchLinesListsMatching | Section_2_MCP/MCP_scratch/advanced_server.py:163-167 | over a table whose records have a string name and an organism the search does not raise, and its lines are "{id}: {name} ({organism})" for exactly the entries whose lowered name contains the query, in table order |
| ScratchAdvancedServer.EmptyQueryMatchesAll | Section_2_MCP/MCP_scratch/advanced_server.py:166 | the empty query matches every entry |
| ScratchAdvancedServer.Bullets | Section_2_MCP/MCP_scratch/advanced_server.py:175 | one "- " line per match, in order |
| ScratchAdvancedServer.FindListsMatches | Section_2_MCP/MCP_scratch/advanced_server.py:163-184 | for any other name over a well-formed table: "Found N proteins:" with N the number of matching entries, followed by one bullet per matching entry, "{id}: {name} ({organism})", in table order; -32602 "No proteins found" when none match |
| ScratchAdvancedServer.FindReply | Section_2_MCP/MCP_scratch/advanced_server.py:163-184 | the same for the `find_protein` branch of the tool dispatch |
| ScratchAdvancedServer.MatchLinesOf | Section_2_MCP/MCP_scratch/advanced_server.py:167 | the reference listing: one "{id}: {name} ({organism})" line per entry, in order |
| ScratchAdvancedServer.FoundOrNone | Section_2_MCP/MCP_scratch/advanced_server.py:169-184 | given the search's lines, a non-empty list is reported with its count and an empty one as -32602 |
| ScratchAdvancedServer.UnknownIdTools | Section_2_MCP/MCP_scratch/advanced_server.py:186-231 | `analyze_protein_stream` and `get_protein_hypothesis` answer -32602 "Protein not found" for an id not in the table |
| ScratchAdvancedServer.HypothesisOfKnownProtein | Section_2_MCP/MCP_scratch/advanced_server.py:233-245 | for a known id, the hypothesis prompt built from name, organism and function; a server error when one of them is missing |
| ScratchAdvancedServer.HypothesisTool | Section_2_MCP/MCP_scratch/advanced_server.py:233-245 | the `get_protein_hypothesis` branch of the tool dispatch, for a known id: the hypothesis prompt when name, organism and function are present, a server error otherwise |
| ScratchAdvancedServer.UnknownIdPrompt | Section_2_MCP/MCP_scratch/advanced_server.py:271-298 | `prompts/get protein_analysis` for an unknown id answers -32601 "Prompt not found" |
| ScratchAdvancedServer.AnalysisPromptOfKnownProtein | Section_2_MCP/MCP_scratch/advanced_server.py:275-292 | for a known id, "Analysis of {name}" with one user message built from name, organism and function; a server error when one is missing |
| ScratchAdvancedServer.GenerateStream | Section_2_MCP/MCP_scratch/advanced_server.py:199-218 | the generator loop yields `StreamChunks(lines, len(lines))` |
| ScratchAdvancedServer.StreamChunksCarryLines | Section_2_MCP/MCP_scratch/advanced_server.py:203-214 | one chunk per non-blank line; each chunk carries its own line, a step i+1 within 1..len(lines), and the constant total len(lines) |
| ScratchAdvancedServer.StreamChunksOrdered | Section_2_MCP/MCP_scratch/advanced_server.py:203-217 | chunk steps strictly increase: chunks come in line order |
| ScratchAdvancedServer.StreamChunksComplete | Section_2_MCP/MCP_scratch/advanced_server.py:203-217 | every non-blank line i has a chunk with step i+1; blank lines are skipped but still counted |
| ScratchAdvancedServer.StreamOfKnownProtein | Section_2_MCP/MCP_scratch/advanced_server.py:187-220 | for a known id with a string log, `analyze_protein_stream` streams the chunks of the log's lines |
| ProteinDb.Matching | Section_2_MCP/MCP_scratch/advanced_server.py:165-166 | every listed entry is an entry of the table whose lowered name contains the query, and the list is no longer than the table |
| ProteinDb.MatchingComplete | Section_2_MCP/MCP_scratch/advanced_server.py:165-166 | every entry whose lowered name contains the query is listed |
| ProteinDb.MatchedIndices | Section_2_MCP/MCP_scratch/advanced_server.py:165-166 | the positions of the entries the search keeps, each within the table |
| ProteinDb.MatchedIndicesIncreasing | Section_2_MCP/MCP_scratch/advanced_server.py:165-166 | those positions increase, so each entry is listed at most once and in table order |
| ProteinDb.MatchedIndicesComplete | Section_2_MCP/MCP_scratch/advanced_server.py:165-166 | every entry whose lowered name contains the query has its position listed |
| ProteinDb.MatchingAtIndices | Section_2_MCP/MCP_scratch/advanced_server.py:165-166 | the search lists exactly the entries at those positions, in that order |
| SdkResources.DatasetOverview | Section_2_MCP/MCP_python_SDK/mcp_basic_server.py:38-47 | id "proteins", count equal to the number of proteins, ids equal to the table's keys (same multiset), each once, in ascending order (the same code is at mcp_advanced_server.py:29-37 and postman_mcp_basic_server.py:21-30) |
| SdkResources.GetProtein | Section_2_MCP/MCP_python_SDK/mcp_basic_server.py:50-59 | always tagged application/json; an error payload "Unknown protein_id: {id}" exactly when the id is absent or its record empty; otherwise the record's fields plus "id" (a stored "id" field wins) (also mcp_advanced_server.py:39-46, postman_mcp_basic_server.py:33-42) |
| SdkResources.GetProteinFunction | Section_2_MCP/MCP_python_SDK/mcp_basic_server.py:62-68 | the record's `function`; raises "Unknown protein_id: {id}" for an absent or empty record and `KeyError` for a record without a function (also mcp_advanced_server.py:48-54, postman_mcp_basic_server.py:45-51) |
| SdkResources.OverviewIdsResolve | Section_2_MCP/MCP_python_SDK/mcp_basic_server.py:38-59 | every id the overview lists with a non-empty record resolves through `get_protein` to its record, field for field |
| SdkResources.FunctionIsRecordField | Section_2_MCP/MCP_python_SDK/mcp_basic_server.py:50-68 | a function served by `get_protein_function` is the `function` field `get_protein` returns |
| SdkAdvancedServer.Server.constructor | Section_2_MCP/MCP_python_SDK/mcp_advanced_server.py:17-18 | the registry and the ledger start empty |
| SdkAdvancedServer.Server.RegisterClient | Section_2_MCP/MCP_python_SDK/mcp_advanced_server.py:59-64 | the registry becomes `registry[id] = url` (the last registration wins, the id keeps its first place), the ledger is unchanged, one info event and the reply text |
| SdkAdvancedServer.Server.TriggerNotification | Section_2_MCP/MCP_python_SDK/mcp_advanced_server.py:66-76 | changes nothing; one notice per registered client in registration order; the reply counts the registry's size |
| SdkAdvancedServer.NotificationEvents | Section_2_MCP/MCP_python_SDK/mcp_advanced_server.py:73-74 | as many notices as clients, the i-th naming the i-th client and its url |
| SdkAdvancedServer.RegisterThenNotify | Section_2_MCP/MCP_python_SDK/mcp_advanced_server.py:59-76 | registering a, b, then a again notifies a (with its last url) and b, in that order, and reports 2 clients |
| SdkAdvancedServer.PutTwoThenFirstAgain | Section_2_MCP/MCP_python_SDK/mcp_advanced_server.py:62 | re-registering the first of two ids keeps its place and takes the new url |
| SdkAdvancedServer.Server.FindProtein | Section_2_MCP/MCP_python_SDK/mcp_advanced_server.py:79-113 | "p53" in any case: an elicitation with exactly the choices P53_HUMAN then P53_MOUSE; otherwise the search loop's outcome: `matches` when some entry matches, `error` naming the query when none does, or the exception the loop raises |
| SdkAdvancedServer.FindMatchesListsMatching | Section_2_MCP/MCP_python_SDK/mcp_advanced_server.py:99-102 | over records with string names the search collects (id, name) for exactly the entries whose lowered name contains the query, in table order |
| SdkAdvancedServer.FindMatches | Section_2_MCP/MCP_python_SDK/mcp_advanced_server.py:99-102 | the search loop: at most one pair per record, and every listed name contains the query once lowered |
| SdkAdvancedServer.MatchStep | Section_2_MCP/MCP_python_SDK/mcp_advanced_server.py:100-102 | one record: an earlier exception stands; an exception arises only from a list-valued name or a missing name under the empty query; otherwise at most the record's own (id, name) is appended, and only when its lowered name contains the query |
| SdkAdvancedServer.FindMatchesRaiseStops | Section_2_MCP/MCP_python_SDK/mcp_advanced_server.py:100-102 | once the search raises it does not recover |
| SdkAdvancedServer.PairObjects | Section_2_MCP/MCP_python_SDK/mcp_advanced_server.py:92-108 | one two-key object per pair, in order: `{"label", "value"}` per elicitation choice, `{"id", "name"}` per search match |
| SdkAdvancedServer.Server.GenerateHypothesis | Section_2_MCP/MCP_python_SDK/mcp_advanced_server.py:116-135 | an unknown id raises and leaves the ledger unchanged; a known id maps the token to the id in the ledger (before the prompt is built) and returns the prompt "The protein {name} is known to {function}. ..." with that token; a missing name or function raises with the token already open |
| SdkAdvancedServer.Server.SubmitSamplingResult | Section_2_MCP/MCP_python_SDK/mcp_advanced_server.py:137-151 | a pending token is removed (and nothing else) and its protein id, the llm result and "success" come back; any other token raises "Invalid callback token" and changes nothing |
| SdkAdvancedServer.SamplingClosesOnce | Section_2_MCP/MCP_python_SDK/mcp_advanced_server.py:116-151 | a fresh token issued for a described protein closes once with success, a second submission raises, and the ledger ends as it began |
| SdkAdvancedServer.Server.StreamAnalysisLog | Section_2_MCP/MCP_python_SDK/mcp_advanced_server.py:154-199 | an unknown id raises with no events; otherwise the log's lines (split when a string, the 12-line default when absent) joined by newlines, with their progress events |
| SdkAdvancedServer.ReportLines | Section_2_MCP/MCP_python_SDK/mcp_advanced_server.py:186-199 | the loop returns the lines joined by "\n" and the events `StreamEvents(lines, len(lines))` |
| SdkAdvancedServer.StreamEventsNumbered | Section_2_MCP/MCP_python_SDK/mcp_advanced_server.py:187-194 | two events per line: progress i of n carrying the i-th line, then "Step i/n: line", for i = 1..n in order |
| SdkAdvancedServer.DefaultLog | Section_2_MCP/MCP_python_SDK/mcp_advanced_server.py:165-178 | twelve lines, the first naming the protein (or its id), the last its function (or "Unknown") |
| SdkAdvancedServer.StringLogReturnedUnchanged | Section_2_MCP/MCP_python_SDK/mcp_advanced_server.py:180-199 | a string log is returned unchanged |
| ScratchClients.Outgoing | Section_2_MCP/MCP_scratch/basic_client.py:9-16 | version "2.0", the counter's id, the method, and `params` present exactly when given and non-empty |
| ScratchClients.PromptParams | Section_2_MCP/MCP_scratch/advanced_client.py:44-48 | always "name"; "arguments" exactly when given and non-empty; no other key |
| ScratchClients.NumberedIncreasing | Section_2_MCP/MCP_scratch/basic_client.py:18 | the ids a client has sent strictly increase, so none repeats |
| ScratchClients.McpClient.constructor | Section_2_MCP/MCP_scratch/basic_client.py:5-7 | the counter starts at 1 with nothing sent |
| ScratchClients.McpClient.SendRequest | Section_2_MCP/MCP_scratch/basic_client.py:9-20 | the envelope carries the old counter; the counter goes up by exactly 1 before the post, so a failed post still uses its id; the reply is the post's |
| ScratchClients.McpClient.Initialize | Section_2_MCP/MCP_scratch/basic_client.py:22-23 | sends `initialize` with no params |
| ScratchClients.McpClient.ListResources | Section_2_MCP/MCP_scratch/basic_client.py:25-26 | sends `resources/list` with no params |
| ScratchClients.McpClient.ReadResource | Section_2_MCP/MCP_scratch/basic_client.py:28-29 | sends `resources/read` with `{"uri": uri}` |
| ScratchClients.McpClient.ListTools | Section_2_MCP/MCP_scratch/basic_client.py:31-32 | sends `tools/list` with no params |
| ScratchClients.McpClient.CallTool | Section_2_MCP/MCP_scratch/basic_client.py:34-38 | sends `tools/call` with `{"name", "arguments"}` |
| ScratchClients.McpAdvancedClient.constructor | Section_2_MCP/MCP_scratch/advanced_client.py:11-14 | the counter starts at 1 with nothing sent |
| ScratchClients.McpAdvancedClient.SendRequest | Section_2_MCP/MCP_scratch/advanced_client.py:16-27 | as the basic client: old counter in the envelope, counter up by 1 before the post |
| ScratchClients.McpAdvancedClient.Initialize | Section_2_MCP/MCP_scratch/advanced_client.py:29-30 | sends `initialize` with no params |
| ScratchClients.McpAdvancedClient.ListTools | Section_2_MCP/MCP_scratch/advanced_client.py:32-33 | sends `tools/list` with no params |
| ScratchClients.McpAdvancedClient.CallTool | Section_2_MCP/MCP_scratch/advanced_client.py:35-39 | sends `tools/call` with `{"name", "arguments"}` |
| ScratchClients.McpAdvancedClient.ListPrompts | Section_2_MCP/MCP_scratch/advanced_client.py:41-42 | sends `prompts/list` with no params |
| ScratchClients.McpAdvancedClient.GetPrompt | Section_2_MCP/MCP_scratch/advanced_client.py:44-48 | sends `prompts/get` with the name and, only when non-empty, the arguments |
| ScratchClients.InitializeAnsweredUnderOwnId | Section_2_MCP/MCP_scratch/basic_client.py:22-23 | both scratch servers answer a client's `initialize` with their handshake under the client's id |
| ScratchClients.ReadResourceReadsTable | Section_2_MCP/MCP_scratch/basic_client.py:28-29 | `read_resource("protein://proteins")` reads the whole table |
| ScratchClients.CallToolReachesTool | Section_2_MCP/MCP_scratch/basic_client.py:34-38 | `call_tool("get_protein_function", ...)` gets the function text for a known id with one, -32602 for an unknown id |
| ScratchClients.GetPromptWithoutArguments | Section_2_MCP/MCP_scratch/advanced_client.py:44-48 | `get_prompt` without arguments names no protein, so the advanced server answers "Prompt not found" |
| SdkClients.FirstText | Section_2_MCP/MCP_python_SDK/mcp_advanced_client.py:35-38 | the first item with a non-empty text; `None` exactly when there is none |
| SdkClients.ExtractJsonFromResult | Section_2_MCP/MCP_python_SDK/mcp_advanced_client.py:26-44 | `structured_content['result']` when present, else the first non-empty text, else `str(result)` |
| SdkClients.HandleElicitation | Section_2_MCP/MCP_python_SDK/mcp_advanced_client.py:46-66 | the first choice's value exactly for a decoded `elicitation` object with printable choices; `None` exactly for undecodable text or another `result_type`; otherwise the lookup raises |
| SdkClients.FollowUp | Section_2_MCP/MCP_python_SDK/mcp_advanced_client.py:158-166 | `get_protein_function` is called, with the selection as `protein_id`, exactly when the selection is truthy |
| SdkClients.P53ElicitationSelectsHuman | Section_2_MCP/MCP_python_SDK/mcp_advanced_client.py:152-164 | the server's p53 elicitation selects P53_HUMAN and leads to asking for its function |
| SdkClients.SearchResultSelectsNothing | Section_2_MCP/MCP_python_SDK/mcp_advanced_client.py:52-66 | a `matches` or `error` result selects nothing and asks nothing more |
| SdkClients.HandleSampling | Section_2_MCP/MCP_python_SDK/mcp_advanced_client.py:68-120 | no submission unless the result is a sampling request and an LLM is available; the submission carries the server's `callback_token` and the completion; a missing `prompt` raises, no LLM gives `NoLlm`, a failed completion or missing token gives `Failed`, and so does any submission whose reply does not decode to an object; a result that is not a sampling request raises exactly when it decodes to a non-object and is otherwise ignored; the outcome is `Submitted` exactly when the reply to the submission decodes to an object, and then a success exactly when its status is "success" |
| SdkClients.SamplingObject | Section_2_MCP/MCP_python_SDK/mcp_advanced_client.py:70-74 | the decoded result is taken as a sampling request exactly when it decodes to an object whose `result_type` is "sampling" |
| SdkClients.ServerCompletionSucceeds | Section_2_MCP/MCP_python_SDK/mcp_advanced_client.py:108-111 | the reply the server builds for a closed token reads as a success |
| SdkClients.ItemToParts | Section_2_MCP/MCP_python_SDK/mcp_basic_client.py:30-40 | one item contributes its text, else its decoded blob or the "<n bytes; mime=...>" placeholder, else nothing |
| SdkClients.ContentToText | Section_2_MCP/MCP_python_SDK/mcp_basic_client.py:16-43 | "" for `None`; `str(obj)` when there are no contents and it is not a list; otherwise the in-order concatenation of the items' parts, stopping with an error marker at a faulty item |
| SdkClients.ItemsToParts | Section_2_MCP/MCP_python_SDK/mcp_basic_client.py:29-43 | the loop over the items gathers `Parts(items)`: every part in order, cut after the marker of the first faulty item |
| SdkClients.PartsAppend | Section_2_MCP/MCP_python_SDK/mcp_basic_client.py:29-40 | over items that do not fault, the parts of a concatenation are the parts of each side in order |
| SdkClients.FaultKeepsEarlierParts | Section_2_MCP/MCP_python_SDK/mcp_basic_client.py:41-43 | a fault keeps the parts gathered before it, appends the marker and drops later items |
| SdkClients.EmptyItemContributesNothing | Section_2_MCP/MCP_python_SDK/mcp_basic_client.py:29-40 | an item with neither text nor blob adds nothing |
| SdkClients.TextBeforeBlob | Section_2_MCP/MCP_python_SDK/mcp_basic_client.py:31-34 | an item with both text and blob contributes its text |
| ChemicalIds.HasSmilesMark | Section_1_LangGraph/utils/chemical_annotator/tools.py:24 | true exactly when some character is a digit or one of `= # @ [ ] ( ) / \` |
| ChemicalIds.LooksLikeSmiles | Section_1_LangGraph/utils/chemical_annotator/tools.py:21-24 | false for the empty string or one with a space; otherwise true exactly when it has a SMILES mark |
| ChemicalIds.InferIdentifierKind | Section_1_LangGraph/utils/chemical_annotator/tools.py:27-36 | chembl exactly when the stripped value is CHEMBL+digits in any case; inchikey exactly when not that and the 14-10-1 upper-case shape; inchi exactly when neither and it starts with "InChI="; smiles only when it looks like SMILES, name only when it does not |
| ChemicalIds.Chembl25IsChembl | Section_1_LangGraph/utils/chemical_annotator/tools.py:27-36 | "CHEMBL25" looks like SMILES yet is classified chembl: the order of the tests decides |
| ChemicalIds.KindShapesDisjoint | Section_1_LangGraph/utils/chemical_annotator/tools.py:28-32 | the ChEMBL, InChIKey and InChI shapes never overlap |
| ChemicalIds.NormaliseCompounds | Section_1_LangGraph/utils/chemical_annotator/tools.py:113-122 | a string becomes a one-item list; a non-empty list passes; `None` and the empty list raise "No compounds provided"; anything else raises "must be a list" |
| ChemicalIds.Kept | Section_1_LangGraph/utils/chemical_annotator/tools.py:125-130 | kept identifiers are stripped and non-empty, no more than the items |
| ChemicalIds.KeptIndicesKeep | Section_1_LangGraph/utils/chemical_annotator/tools.py:125-130 | only items that are neither `None` nor blank are resolved |
| ChemicalIds.KeptIndicesIncreasing | Section_1_LangGraph/utils/chemical_annotator/tools.py:125 | in item order |
| ChemicalIds.KeptIndicesComplete | Section_1_LangGraph/utils/chemical_annotator/tools.py:125-130 | every item that is neither `None` nor blank is resolved |
| ChemicalIds.KeptAtIndices | Section_1_LangGraph/utils/chemical_annotator/tools.py:125-130 | `Kept` is exactly the stripped values of those items, in order: `None` and blank items contribute nothing |
| ChemicalIds.ResolveOne | Section_1_LangGraph/utils/chemical_annotator/tools.py:131-148 | a smiles-kind identifier is its own SMILES; otherwise the resolver's answer, with the identifier itself when the resolver finds nothing and it looks like SMILES |
| ChemicalIds.ResolveAll | Section_1_LangGraph/utils/chemical_annotator/tools.py:124-148 | the loop builds `ResolvedRows(items)` |
| ChemicalIds.ResolveItem | Section_1_LangGraph/utils/chemical_annotator/tools.py:125-148 | one pass of the loop: `None` and blank items add nothing; any other item adds the row of its stripped value |
| ChemicalIds.ResolvedRows | Section_1_LangGraph/utils/chemical_annotator/tools.py:124-148 | no more rows than items; every row's identifier is stripped and non-empty, and its kind is the one inferred from it |
| ChemicalIds.RowsFollowKept | Section_1_LangGraph/utils/chemical_annotator/tools.py:124-148 | one row per kept identifier, in order, each the resolution of that identifier |
| ChemicalIds.Dedup | Section_1_LangGraph/utils/chemical_annotator/tools.py:228-229 | `list(dict.fromkeys(xs))` holds each value of `xs` once and nothing else |
| ChemicalIds.DedupKeepsFirstOrder | Section_1_LangGraph/utils/chemical_annotator/tools.py:228-229 | and lists them in the order of their first occurrences |
| ChemicalIds.DedupOfDistinct | Section_1_LangGraph/utils/chemical_annotator/tools.py:228-229 | a list without repeats is unchanged |
| ChemicalIds.DedupIdempotent | Section_1_LangGraph/utils/chemical_annotator/tools.py:228-229 | de-duplicating twice is de-duplicating once |
| ChemicalIds.KeggColumn | Section_1_LangGraph/utils/chemical_annotator/tools.py:225 | the `KEGG_ID` column of the rows, in order |
| ChemicalIds.PathwayColumn | Section_1_LangGraph/utils/chemical_annotator/tools.py:226 | the `Pathway` column of the rows, in order |
| ChemicalIds.ExtendedKegg | Section_1_LangGraph/utils/chemical_annotator/tools.py:217-226 | reference for `kegg_ids` after the loop: the distinct KEGG ids of each lookup, appended lookup by lookup (no ensures; its members are characterised by `ExtendedKeggSource` and `ExtendedKeggComplete`) |
| ChemicalIds.ExtendedPathways | Section_1_LangGraph/utils/chemical_annotator/tools.py:218-226 | the same for `pathways` (characterised by `ExtendedPathwaysSource` and `ExtendedPathwaysComplete`) |
| ChemicalIds.ExtendedStep | Section_1_LangGraph/utils/chemical_annotator/tools.py:220-226 | each EC number extends both lists by its lookup's distinct values |
| ChemicalIds.LookUpAndExtend | Section_1_LangGraph/utils/chemical_annotator/tools.py:220-226 | one pass of the loop: strip the EC number, look it up, extend both lists by the distinct values of the result (by nothing when the lookup is empty) |
| ChemicalIds.LookUps | Section_1_LangGraph/utils/chemical_annotator/tools.py:216-222 | one lookup per ';'-separated EC number, in order, each of the stripped number |
| ChemicalIds.KeggReportedFrom | Section_1_LangGraph/utils/chemical_annotator/tools.py:220-226 | a KEGG id of lookup `i` stays in the list through every later EC number |
| ChemicalIds.EcPathways | Section_1_LangGraph/utils/chemical_annotator/tools.py:216-229 | the loop over the ';'-separated EC numbers, then de-duplication, gives `Dedup(ExtendedKegg(...))` and `Dedup(ExtendedPathways(...))` |
| ChemicalIds.ExtendedKeggSource | Section_1_LangGraph/utils/chemical_annotator/tools.py:220-228 | every KEGG id reported comes from the lookup of one of the EC numbers |
| ChemicalIds.ExtendedKeggComplete | Section_1_LangGraph/utils/chemical_annotator/tools.py:220-228 | every KEGG id some lookup returned is reported |
| ChemicalIds.ExtendedPathwaysSource | Section_1_LangGraph/utils/chemical_annotator/tools.py:220-228 | every pathway reported comes from the lookup of one of the EC numbers |
| ChemicalIds.ExtendedPathwaysComplete | Section_1_LangGraph/utils/chemical_annotator/tools.py:220-228 | every pathway some lookup returned is reported |
| ChemicalIds.PathwayReportedFrom | Section_1_LangGraph/utils/chemical_annotator/tools.py:220-226 | a pathway of lookup `i` stays in the list through every later EC number |
| Text.Strip | Section_1_LangGraph/utils/chemical_annotator/tools.py:128 | `str.strip`: empty exactly for a blank string; otherwise both ends are non-space; a string without surrounding space is unchanged |
| Text.StripIsSlice | Section_1_LangGraph/utils/chemical_annotator/tools.py:128 | `str.strip` keeps a slice of the string and removes only whitespace before and after it |
| Text.StripUnique | Section_1_LangGraph/utils/chemical_annotator/tools.py:128 | any slice with no whitespace at its ends and only whitespace around it is the stripped string, so the result is fully determined |
| Text.JoinSplit | Section_2_MCP/MCP_python_SDK/mcp_advanced_server.py:181 | `"\n".join(s.split("\n")) == s` |
| StringOrder.Sort | Section_2_MCP/MCP_python_SDK/mcp_basic_server.py:43 | `sorted`: ascending, a permutation of its input |
| OrderedDict.Put | Section_2_MCP/MCP_python_SDK/mcp_advanced_server.py:62 | `d[k] = v`: an existing key keeps its place; a new key goes last |
| OrderedDict.PutGet | Section_2_MCP/MCP_python_SDK/mcp_advanced_server.py:62 | after `d[k] = v`, `k` maps to `v` and every other key to what it did before |
| OrderedDict.PutPut | Section_2_MCP/MCP_python_SDK/mcp_advanced_server.py:62 | writing one key twice is the same as writing it once with the second value |

## Left out

- Transports are left out: Flask routes, `jsonify`, `Response` and `stream_with_context`, the FastMCP decorators, `streamable_http_app`, uvicorn and stdio, `requests.post` and the SDK `ClientSession`. Handlers are functions or methods from arguments to results, and the HTTP post and `call_tool` are oracle arguments.
- JSON text is not modelled: no `json.dumps` indentation, no `json.loads` parsing, no key order. Payloads are datatypes, and decoding is an oracle that may fail.
- Request params hold only strings and string-valued `arguments` objects. A `params` that is not an object, or a numeric argument, is not modelled. An `arguments` member that is not an object makes the handler raise, which is modelled as a server error.
- Record fields are strings or lists of strings. An f-string of a list renders as `['a', 'b']`, without escaping quotes inside items.
- `time.sleep` and `asyncio.sleep` pacing, logging and console output are left out. `ctx.info` and `ctx.report_progress` become returned event sequences.
- The scratch server's background thread `send_periodic_notifications` is left out. It only logs. The unused `server_state` dict is left out too.
- The stream's progress ratio `(i + 1) / len(lines)` is the integer pair (i + 1, len(lines)) rather than a float.
- A stream that raises inside its generator is cut to `Stream([], true)`. This happens when a record's log is a list, which has no `split`. No partial output is modelled.
- `dataset_overview` returns text in the basic servers and JSON bytes in the advanced one. `SdkResources.DatasetOverview` models the overview object, not its encoding.
- SdkAdvancedServer.Server.GenerateHypothesis: `uuid.uuid4()` becomes the `token` argument. Freshness is a caller's precondition, stated in `SamplingClosesOnce`. A token already in the ledger would be overwritten.
- The OpenAI client of the advanced clients is the `llmAvailable` flag plus a `complete` oracle. The model name, messages and temperature are not modelled.
- SdkClients.HandleElicitation: the printed labels and values matter only in that a choice without them raises.
- SdkClients.ExtractJsonFromResult: `structured_content` is modelled as string-valued, and an exception raised while reading the result is not modelled.
- ChemicalIds.InferIdentifierKind: `\d` is taken as the ASCII digits, not every Unicode decimal digit.
- Text.Lower: `str.lower` is modelled on ASCII letters only.
- `annotate_chemicals` after resolution is not part of this model. That covers the pandas pipeline, the ChEMBL and KEGG network lookups, the output files and the re-raise at the end. The pathway loop is modelled for one target row.
- `agent_demo.py` is not part of this model. It holds the LangGraph wiring, the calculator's `eval` and the interactive loop. `jupyter_lab_config.py` is not part of it either.
- The hand-written clients' `requests.post(...).json()` decoding is folded into the `post` oracle.
