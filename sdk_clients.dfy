/** The FastMCP clients: how `mcp_advanced_client.py` reads a tool
    result, answers an elicitation and completes a sampling request, and
    how `mcp_basic_client.py` flattens content to text. The session's
    `call_tool`, `json.loads`, the OpenAI completion and UTF-8 decoding
    are arguments (oracles) that may fail. */
module SdkClients {
  import opened Wrappers
  import opened Text
  import opened JsonValue
  import SdkAdvancedServer

  // ---------------------------------------------------------------------
  // extract_json_from_result
  // ---------------------------------------------------------------------

  /** A tool result as the client sees it: `structured_content` (empty when
      absent), the `text` of each content item (`None` for an item with no
      text), and `str(result)`. */
  datatype ToolResult = ToolResult(structured: map<string, string>, content: seq<Option<string>>, display: string)

  /** The first item with a non-empty text. */
  function FirstText(items: seq<Option<string>>): (r: Option<string>)
    ensures r.None? <==> forall i :: 0 <= i < |items| ==> items[i].None? || items[i].value == ""
    ensures r.Some? ==> exists i :: 0 <= i < |items| && items[i] == r && r.value != ""
                          && forall j :: 0 <= j < i ==> items[j].None? || items[j].value == ""
  {
    if items == [] then None
    else if items[0].Some? && items[0].value != "" then items[0]
    else
      var r := FirstText(items[1..]);
      assert forall i :: 1 <= i < |items| ==> items[i] == items[1..][i - 1];
      if r.Some? then
        var i :| 0 <= i < |items[1..]| && items[1..][i] == r && r.value != ""
                 && forall j :: 0 <= j < i ==> items[1..][j].None? || items[1..][j].value == "";
        assert items[i + 1] == r;
        r
      else r
  }

  /** `extract_json_from_result`: the structured `result`, else the first
      non-empty text, else `str(result)`. */
  function ExtractJsonFromResult(result: ToolResult): (r: string)
    ensures "result" in result.structured ==> r == result.structured["result"]
    ensures "result" !in result.structured && FirstText(result.content).Some? ==>
              r == FirstText(result.content).value
    ensures "result" !in result.structured && FirstText(result.content).None? ==> r == result.display
  {
    if "result" in result.structured then result.structured["result"]
    else match FirstText(result.content)
      case Some(text) => text
      case None => result.display
  }

  // ---------------------------------------------------------------------
  // handle_elicitation
  // ---------------------------------------------------------------------

  /** What `handle_elicitation` ends with: the value of the chosen option,
      `None`, or an exception it does not catch. */
  datatype Elicited = Selected(value: Json) | NoSelection | LookupRaised

  /** Each choice can be printed: an object with `label` and `value`. */
  predicate PrintableChoices(choices: seq<Json>) {
    forall i :: 0 <= i < |choices| ==>
      choices[i].JObj? && "label" in choices[i].fields && "value" in choices[i].fields
  }

  /** `handle_elicitation`: for a decoded `elicitation` object whose
      message and choices can be printed, the value of the first choice;
      `None` for text that does not decode or any other `result_type`;
      otherwise the lookup raises. */
  function HandleElicitation(result: ToolResult, parse: string -> Result<Json>): (r: Elicited)
    ensures var d := parse(ExtractJsonFromResult(result));
            r.Selected? <==>
              && d.Ok? && d.value.JObj? && Field(d.value.fields, "result_type") == Some(JStr("elicitation"))
              && "message" in d.value.fields && "choices" in d.value.fields
              && d.value.fields["choices"].JArr? && d.value.fields["choices"].items != []
              && PrintableChoices(d.value.fields["choices"].items)
    ensures var d := parse(ExtractJsonFromResult(result));
            r.Selected? ==> r.value == d.value.fields["choices"].items[0].fields["value"]
    ensures var d := parse(ExtractJsonFromResult(result));
            r == NoSelection <==>
              d.Err? || (d.value.JObj? && Field(d.value.fields, "result_type") != Some(JStr("elicitation")))
  {
    match parse(ExtractJsonFromResult(result))
    case Err(_) => NoSelection
    case Ok(data) =>
      if !data.JObj? then LookupRaised  // `data.get` on a list, string or number
      else if Field(data.fields, "result_type") != Some(JStr("elicitation")) then NoSelection
      else if "message" !in data.fields || "choices" !in data.fields then LookupRaised
      else
        var choices := data.fields["choices"];
        if choices.JArr? && choices.items != [] && PrintableChoices(choices.items) then
          Selected(choices.items[0].fields["value"])
        else LookupRaised
  }

  /** The follow-up in `main`: `get_protein_function` is called, with the
      selection as `protein_id`, exactly when the selection is truthy. */
  function FollowUp(e: Elicited): (call: Option<map<string, Json>>)
    ensures call.Some? <==> e.Selected? && Truthy(e.value)
    ensures call.Some? ==> call.value == map["protein_id" := e.value]
  {
    if e.Selected? && Truthy(e.value) then Some(map["protein_id" := e.value]) else None
  }

  /** The server's "p53" elicitation, read by the client, selects the human
      protein and leads to asking for its function. */
  lemma P53ElicitationSelectsHuman(result: ToolResult, parse: string -> Result<Json>)
    requires parse(ExtractJsonFromResult(result))
             == Ok(SdkAdvancedServer.FindResultJson(
                     SdkAdvancedServer.Elicitation("Multiple proteins match 'p53'. Please specify:",
                                                   SdkAdvancedServer.P53Choices)))
    ensures HandleElicitation(result, parse) == Selected(JStr("P53_HUMAN"))
    ensures FollowUp(HandleElicitation(result, parse)) == Some(map["protein_id" := JStr("P53_HUMAN")])
  {
    var items := SdkAdvancedServer.PairObjects("label", "value", SdkAdvancedServer.P53Choices);
    assert items[0] == JObj(map["label" := JStr("Human p53"), "value" := JStr("P53_HUMAN")]);
    assert items[1] == JObj(map["label" := JStr("Mouse p53"), "value" := JStr("P53_MOUSE")]);
    assert PrintableChoices(items);
  }

  /** A `matches` or `error` result selects nothing. */
  lemma SearchResultSelectsNothing(result: ToolResult, parse: string -> Result<Json>, found: SdkAdvancedServer.FindResult)
    requires !found.Elicitation?
    requires parse(ExtractJsonFromResult(result)) == Ok(SdkAdvancedServer.FindResultJson(found))
    ensures HandleElicitation(result, parse) == NoSelection
    ensures FollowUp(HandleElicitation(result, parse)) == None
  {
  }

  // ---------------------------------------------------------------------
  // handle_sampling
  // ---------------------------------------------------------------------

  /** How `handle_sampling` ends. */
  datatype SamplingOutcome =
    | NotSampling        // undecodable text or another `result_type`
    | NoLlm              // no OpenAI client: nothing is submitted
    | SamplingRaised     // an exception escapes (`data.get` on a non-object, a missing `prompt`)
    | Failed             // the completion, the submission or reading its reply failed (caught, reported)
    | Submitted(success: bool)

  /** The decoded object when the tool result is a sampling request. */
  function SamplingObject(result: ToolResult, parse: string -> Result<Json>): (r: Option<map<string, Json>>)
    ensures r.Some? <==> && parse(ExtractJsonFromResult(result)).Ok?
                         && parse(ExtractJsonFromResult(result)).value.JObj?
                         && Field(parse(ExtractJsonFromResult(result)).value.fields, "result_type") == Some(JStr("sampling"))
    ensures r.Some? ==> r.value == parse(ExtractJsonFromResult(result)).value.fields
  {
    match parse(ExtractJsonFromResult(result))
    case Ok(JObj(fields)) =>
      if Field(fields, "result_type") == Some(JStr("sampling")) then Some(fields) else None
    case _ => None
  }

  /** The arguments of `submit_sampling_result`. */
  function SubmissionArgs(token: Json, llmResult: string): map<string, Json> {
    map["callback_token" := token, "llm_result" := JStr(llmResult)]
  }

  /** `status == "success"` in the decoded reply to the submission. */
  predicate Succeeded(reply: ToolResult, parse: string -> Result<Json>) {
    var decoded := parse(ExtractJsonFromResult(reply));
    decoded.Ok? && decoded.value.JObj? && Field(decoded.value.fields, "status") == Some(JStr("success"))
  }

  /** `handle_sampling`: only a sampling request with an LLM available
      leads to a submission; the submission carries the server's
      `callback_token` unchanged and the completion as `llm_result`; the
      outcome is a success exactly when the reply's status is "success". */
  method HandleSampling(result: ToolResult, llmAvailable: bool, parse: string -> Result<Json>,
                        complete: Json -> Result<string>,
                        callTool: (string, map<string, Json>) -> Result<ToolResult>)
      returns (outcome: SamplingOutcome, submitted: Option<map<string, Json>>)
    ensures SamplingObject(result, parse).None? || !llmAvailable ==> submitted.None?
    ensures SamplingObject(result, parse).None? ==> outcome in {NotSampling, SamplingRaised}
    ensures submitted.Some? ==>
              var data := SamplingObject(result, parse).value;
              && "prompt" in data && "callback_token" in data && complete(data["prompt"]).Ok?
              && submitted.value == SubmissionArgs(data["callback_token"], complete(data["prompt"]).value)
    ensures (&& llmAvailable && SamplingObject(result, parse).Some?
             && "prompt" in SamplingObject(result, parse).value
             && "callback_token" in SamplingObject(result, parse).value
             && complete(SamplingObject(result, parse).value["prompt"]).Ok?) ==> submitted.Some?
    ensures (SamplingObject(result, parse).Some? && "prompt" !in SamplingObject(result, parse).value)
            ==> outcome == SamplingRaised
    ensures (SamplingObject(result, parse).Some? && "prompt" in SamplingObject(result, parse).value
             && !llmAvailable) ==> outcome == NoLlm
    ensures (SamplingObject(result, parse).Some? && "prompt" in SamplingObject(result, parse).value
             && llmAvailable && submitted.None?) ==> outcome == Failed
    ensures outcome.Submitted? ==>
              && submitted.Some?
              && callTool("submit_sampling_result", submitted.value).Ok?
              && (outcome.success <==> Succeeded(callTool("submit_sampling_result", submitted.value).value, parse))
    ensures (&& submitted.Some?
             && callTool("submit_sampling_result", submitted.value).Ok?
             && parse(ExtractJsonFromResult(callTool("submit_sampling_result", submitted.value).value)).Ok?
             && parse(ExtractJsonFromResult(callTool("submit_sampling_result", submitted.value).value)).value.JObj?)
            <==> outcome.Submitted?
    ensures submitted.Some? && !outcome.Submitted? ==> outcome == Failed
    ensures SamplingObject(result, parse).None? ==>
              (outcome == SamplingRaised <==>
                 parse(ExtractJsonFromResult(result)).Ok? && !parse(ExtractJsonFromResult(result)).value.JObj?)
  {
    submitted := None;
    var decoded := parse(ExtractJsonFromResult(result));
    if decoded.Err? {
      return NotSampling, None;
    }
    var data := decoded.value;
    if !data.JObj? {
      return SamplingRaised, None;
    }
    if Field(data.fields, "result_type") != Some(JStr("sampling")) {
      return NotSampling, None;
    }
    if "prompt" !in data.fields {
      return SamplingRaised, None;
    }
    if !llmAvailable {
      return NoLlm, None;
    }
    var completion := complete(data.fields["prompt"]);
    if completion.Err? || "callback_token" !in data.fields {
      return Failed, None;
    }
    submitted := Some(SubmissionArgs(data.fields["callback_token"], completion.value));
    var reply := callTool("submit_sampling_result", submitted.value);
    if reply.Err? {
      return Failed, submitted;
    }
    var status := parse(ExtractJsonFromResult(reply.value));
    if status.Err? || !status.value.JObj? {
      return Failed, submitted;  // `json.loads` or `.get` raised inside the reporting `try`
    }
    outcome := Submitted(Field(status.value.fields, "status") == Some(JStr("success")));
  }

  /** What the server's `submit_sampling_result` returns, serialised. */
  function SamplingCompleteJson(c: SdkAdvancedServer.SamplingComplete): Json {
    JObj(map["result_type" := JStr("sampling_complete"), "protein_id" := JStr(c.proteinId),
             "llm_result" := JStr(c.llmResult), "status" := JStr(c.status)])
  }

  /** A reply the server built for a closed token counts as a success. */
  lemma ServerCompletionSucceeds(reply: ToolResult, parse: string -> Result<Json>,
                                 pid: string, llmResult: string)
    requires parse(ExtractJsonFromResult(reply))
             == Ok(SamplingCompleteJson(SdkAdvancedServer.SamplingComplete(pid, llmResult, "success")))
    ensures Succeeded(reply, parse)
  {
  }

  // ---------------------------------------------------------------------
  // content_to_text (mcp_basic_client.py)
  // ---------------------------------------------------------------------

  /** A content item: its `text`, its `blob` and its `mimeType` attribute
      (`None` when the attribute is missing, `Some(None)` when it is
      `None`), or an item whose attribute access raises. */
  datatype Item =
    | Item(text: Option<string>, blob: Option<seq<bv8>>, mimeType: Option<Option<string>>)
    | Faulty(error: string)

  /** The object handed to `content_to_text`. */
  datatype Content =
    | NoneObject                  // `None`
    | WithContents(items: seq<Item>)  // an object whose `contents` is not `None`
    | ListObject(items: seq<Item>)    // a list
    | OtherObject(display: string)    // anything else, shown as `str(obj)`

  function MimeText(m: Option<Option<string>>): string {
    match m
    case None => "application/octet-stream"
    case Some(None) => "None"
    case Some(Some(s)) => s
  }

  /** What one non-faulty item contributes: its text; else its blob
      decoded, or a placeholder with its size and type; else nothing. */
  function ItemPart(item: Item, decode: seq<bv8> -> Option<string>): seq<string>
    requires item.Item?
  {
    if item.text.Some? then [item.text.value]
    else if item.blob.Some? then
      match decode(item.blob.value)
      case Some(s) => [s]
      case None => ["<" + NatToString(|item.blob.value|) + " bytes; mime=" + MimeText(item.mimeType) + ">"]
    else []
  }

  function ErrorMarker(error: string): string {
    "<error formatting content: " + error + ">"
  }

  /** The parts gathered over `items`: each item's contribution in order,
      and at the first faulty item an error marker, after which nothing
      more is gathered. */
  function Parts(items: seq<Item>, decode: seq<bv8> -> Option<string>): seq<string>
  {
    if items == [] then []
    else if items[0].Faulty? then [ErrorMarker(items[0].error)]
    else ItemPart(items[0], decode) + Parts(items[1..], decode)
  }

  /** The text `content_to_text` returns. */
  function ContentText(obj: Content, decode: seq<bv8> -> Option<string>): string {
    match obj
    case NoneObject => ""
    case OtherObject(display) => display
    case WithContents(items) => Join("", Parts(items, decode))
    case ListObject(items) => Join("", Parts(items, decode))
  }

  /** The branch of the loop body for one item that does not fault. */
  method ItemToParts(item: Item, decode: seq<bv8> -> Option<string>) returns (part: seq<string>)
    requires item.Item?
    ensures part == ItemPart(item, decode)
    ensures |part| <= 1
  {
    part := [];
    if item.text.Some? {
      part := [item.text.value];
    } else if item.blob.Some? {
      var decoded := decode(item.blob.value);
      if decoded.Some? {
        part := [decoded.value];
      } else {
        part := ["<" + NatToString(|item.blob.value|) + " bytes; mime=" + MimeText(item.mimeType) + ">"];
      }
    }
  }

  /** `content_to_text`. */
  method ContentToText(obj: Content, decode: seq<bv8> -> Option<string>) returns (s: string)
    ensures s == ContentText(obj, decode)
  {
    if obj.NoneObject? {
      return "";
    }
    if obj.OtherObject? {
      return obj.display;
    }
    var parts := ItemsToParts(obj.items, decode);
    s := Join("", parts);
  }

  /** The loop of `content_to_text` over the items: the parts gathered,
      stopping at the first faulty item. */
  method ItemsToParts(items: seq<Item>, decode: seq<bv8> -> Option<string>) returns (parts: seq<string>)
    ensures parts == Parts(items, decode)
  {
    parts := [];
    for i := 0 to |items|
      invariant parts + Parts(items[i..], decode) == Parts(items, decode)
    {
      assert items[i..][1..] == items[i + 1..];
      var item := items[i];
      if item.Faulty? {
        assert Parts(items[i..], decode) == [ErrorMarker(item.error)];
        parts := parts + [ErrorMarker(item.error)];
        return;
      }
      var part := ItemToParts(item, decode);
      parts := parts + part;
    }
    assert items[|items|..] == [];
  }

  predicate NoFault(items: seq<Item>) {
    forall i :: 0 <= i < |items| ==> items[i].Item?
  }

  /** Over items that do not fault, the parts of a concatenation are the
      parts of each side in order. */
  lemma {:induction false} PartsAppend(a: seq<Item>, b: seq<Item>, decode: seq<bv8> -> Option<string>)
    requires NoFault(a)
    ensures Parts(a + b, decode) == Parts(a, decode) + Parts(b, decode)
    decreases |a|
  {
    if a != [] {
      assert (a + b)[1..] == a[1..] + b;
      PartsAppend(a[1..], b, decode);
    } else {
      assert a + b == b;
    }
  }

  /** A fault keeps the parts gathered before it, adds the marker and
      drops every later item. */
  lemma {:induction false} FaultKeepsEarlierParts(a: seq<Item>, error: string, b: seq<Item>,
                                                 decode: seq<bv8> -> Option<string>)
    requires NoFault(a)
    ensures Parts(a + [Faulty(error)] + b, decode) == Parts(a, decode) + [ErrorMarker(error)]
  {
    assert a + [Faulty(error)] + b == a + ([Faulty(error)] + b);
    PartsAppend(a, [Faulty(error)] + b, decode);
  }

  /** An item with neither text nor blob contributes nothing. */
  lemma EmptyItemContributesNothing(a: seq<Item>, m: Option<Option<string>>, b: seq<Item>,
                                    decode: seq<bv8> -> Option<string>)
    requires NoFault(a)
    ensures Parts(a + [Item(None, None, m)] + b, decode) == Parts(a + b, decode)
  {
    assert a + [Item(None, None, m)] + b == a + ([Item(None, None, m)] + b);
    PartsAppend(a, [Item(None, None, m)] + b, decode);
    PartsAppend(a, b, decode);
    assert ([Item(None, None, m)] + b)[1..] == b;
  }

  /** Text wins over a blob: an item with both contributes its text. */
  lemma TextBeforeBlob(t: string, blob: seq<bv8>, m: Option<Option<string>>, decode: seq<bv8> -> Option<string>)
    ensures Parts([Item(Some(t), Some(blob), m)], decode) == [t]
  {
  }
}
