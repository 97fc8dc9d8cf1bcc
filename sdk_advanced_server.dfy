/** The FastMCP advanced server (`mcp_advanced_server.py`): the client
    registry and the sampling-callback ledger it keeps in module-level
    dicts, and the tools that read or change them. `ctx.info` and
    `ctx.report_progress` become events a tool returns in order; `uuid4`
    becomes the `token` argument of `GenerateHypothesis`. A tool that
    raises returns `Err(str(exception))`. */
module SdkAdvancedServer {
  import opened Wrappers
  import opened Text
  import opened OrderedDict
  import opened ProteinDb
  import opened SdkResources
  import opened JsonValue

  /** What a tool reports through its context while it runs. */
  datatype Event = Info(message: string) | Progress(progress: nat, total: nat, message: string)

  /** The three `result_type`s of `find_protein`. */
  datatype FindResult =
    | Elicitation(message: string, choices: seq<(string, string)>)  // (label, value)
    | Matches(matches: seq<(string, string)>)                        // (id, name)
    | NoMatch(message: string)

  /** `{"result_type": "sampling", "prompt": ..., "callback_token": ...}`. */
  datatype SamplingRequest = SamplingRequest(prompt: string, callbackToken: string)

  /** `{"result_type": "sampling_complete", ...}`. */
  datatype SamplingComplete = SamplingComplete(proteinId: string, llmResult: string, status: string)

  const P53Choices := [("Human p53", "P53_HUMAN"), ("Mouse p53", "P53_MOUSE")]

  // ---------------------------------------------------------------------
  // trigger_notification
  // ---------------------------------------------------------------------

  function NotificationText(clientId: string, callbackUrl: string): string {
    "Sending notification to " + clientId + " at " + callbackUrl + ": {'message': 'Database was updated!'}"
  }

  /** One notice per registered client, in registration order. */
  function NotificationEvents(clients: seq<(string, string)>): (r: seq<Event>)
    ensures |r| == |clients|
    ensures forall i :: 0 <= i < |clients| ==> r[i] == Info(NotificationText(clients[i].0, clients[i].1))
    decreases |clients|
  {
    if clients == [] then []
    else
      var n := |clients| - 1;
      NotificationEvents(clients[..n]) + [Info(NotificationText(clients[n].0, clients[n].1))]
  }

  // ---------------------------------------------------------------------
  // find_protein
  // ---------------------------------------------------------------------

  /** The `(id, name)` pairs the search loop collects over `entries`;
      `Err` when `data.get("name", "").lower()` or `data["name"]` raises:
      a list-valued name has no `lower`, and a record without a name
      matches the empty query and then has no `name` to read. */
  function FindMatches(entries: seq<(string, Record)>, query: string): (r: Result<seq<(string, string)>>)
    ensures r.Ok? ==> |r.value| <= |entries|
    ensures r.Ok? ==> forall k :: 0 <= k < |r.value| ==> Contains(Lower(r.value[k].1), query)
    decreases |entries|
  {
    if entries == [] then Ok([])
    else MatchStep(FindMatches(entries[..|entries| - 1], query), entries[|entries| - 1], query)
  }

  /** One record of the search: an earlier error stands; otherwise the
      record raises, is added, or is passed over. */
  function MatchStep(prev: Result<seq<(string, string)>>, entry: (string, Record), query: string)
      : (r: Result<seq<(string, string)>>)
    ensures prev.Err? ==> r == prev
    ensures r.Err? && prev.Ok? ==>
              ("name" in entry.1 && entry.1["name"].Lines?) || ("name" !in entry.1 && query == "")
    ensures r.Ok? ==> prev.Ok? && prev.value <= r.value && |r.value| <= |prev.value| + 1
    ensures r.Ok? && |r.value| > |prev.value| ==>
              && "name" in entry.1 && entry.1["name"].Str?
              && r.value[|prev.value|] == (entry.0, entry.1["name"].s) && Contains(Lower(entry.1["name"].s), query)
  {
    var (pid, data) := entry;
    if prev.Err? then prev
    else if "name" in data && data["name"].Lines? then Err("'list' object has no attribute 'lower'")
    else if "name" !in data then
      if query == "" then Err("'name'") else prev
    else if Contains(Lower(data["name"].s), query) then Ok(prev.value + [(pid, data["name"].s)])
    else prev
  }

  /** Every record has a string name. */
  predicate Named(entries: seq<(string, Record)>) {
    forall i :: 0 <= i < |entries| ==> "name" in entries[i].1 && entries[i].1["name"].Str?
  }

  /** Over a table of named records the search collects exactly the
      matching entries, in table order. */
  lemma {:induction false} FindMatchesListsMatching(entries: seq<(string, Record)>, query: string)
    requires Named(entries)
    ensures var m := Matching(entries, query);
            FindMatches(entries, query).Ok?
            && |FindMatches(entries, query).value| == |m|
            && forall k :: 0 <= k < |m| ==>
                 FindMatches(entries, query).value[k] == (m[k].0, m[k].1["name"].s)
    decreases |entries|
  {
    if entries != [] {
      var init := entries[..|entries| - 1];
      assert Named(init) by {
        forall i | 0 <= i < |init| ensures "name" in init[i].1 && init[i].1["name"].Str? {
          assert init[i] == entries[i];
        }
      }
      FindMatchesListsMatching(init, query);
    }
  }

  /** Once the search raises, it does not recover. */
  lemma {:induction false} FindMatchesRaiseStops(entries: seq<(string, Record)>, query: string, i: nat)
    requires i <= |entries| && FindMatches(entries[..i], query).Err?
    ensures FindMatches(entries, query) == FindMatches(entries[..i], query)
    decreases |entries| - i
  {
    if i < |entries| {
      assert entries[..i + 1][..i] == entries[..i];
      FindMatchesRaiseStops(entries, query, i + 1);
    } else {
      assert entries[..i] == entries;
    }
  }

  /** The reference for `find_protein`'s outcome given the search result. */
  function FindOutcome(query: string, found: Result<seq<(string, string)>>): Result<FindResult> {
    match found
    case Err(e) => Err(e)
    case Ok(matches) =>
      if matches != [] then Ok(Matches(matches))
      else Ok(NoMatch("No proteins found matching '" + query + "'"))
  }

  /** The object `find_protein` serialises with `json.dumps`. */
  function FindResultJson(r: FindResult): Json {
    match r
    case Elicitation(message, choices) =>
      JObj(map["result_type" := JStr("elicitation"), "message" := JStr(message),
               "choices" := JArr(PairObjects("label", "value", choices))])
    case Matches(matches) =>
      JObj(map["result_type" := JStr("matches"), "matches" := JArr(PairObjects("id", "name", matches))])
    case NoMatch(message) =>
      JObj(map["result_type" := JStr("error"), "message" := JStr(message)])
  }

  /** A list of two-key objects, one per pair, in order: the choices of an
      elicitation (`label`, `value`) and the matches of a search (`id`,
      `name`). */
  function PairObjects(first: string, second: string, pairs: seq<(string, string)>): (r: seq<Json>)
    ensures |r| == |pairs|
    ensures forall i :: 0 <= i < |r| ==>
              r[i] == JObj(map[first := JStr(pairs[i].0), second := JStr(pairs[i].1)])
  {
    if pairs == [] then []
    else [JObj(map[first := JStr(pairs[0].0), second := JStr(pairs[0].1)])] + PairObjects(first, second, pairs[1..])
  }

  // ---------------------------------------------------------------------
  // stream_analysis_log
  // ---------------------------------------------------------------------

  /** The log used when the record stores none: twelve steps naming the
      protein (or its id) and, last, its function (or "Unknown"). */
  function DefaultLog(pid: string, data: Record): (r: seq<string>)
    ensures |r| == 12
    ensures r[0] == "Starting analysis of " + (if "name" in data then Show(data["name"]) else pid)
    ensures r[11] == "Analysis complete. Function: "
                     + (if "function" in data then Show(data["function"]) else "Unknown")
  {
    ["Starting analysis of " + (if "name" in data then Show(data["name"]) else pid),
     "Loading sequence data...",
     "Analyzing domain structure...",
     "Predicting secondary structure...",
     "Identifying functional motifs...",
     "Comparing with homologs...",
     "Checking post-translational modifications...",
     "Validating structural predictions...",
     "Assessing stability...",
     "Evaluating interaction partners...",
     "Generating final report...",
     "Analysis complete. Function: " + (if "function" in data then Show(data["function"]) else "Unknown")]
  }

  /** The lines `stream_analysis_log` walks: a string log split on
      newlines, a list log as it is, or the default. */
  function LogLines(pid: string, data: Record): seq<string> {
    if "log" !in data then DefaultLog(pid, data)
    else match data["log"]
      case Str(text) => Split(text, '\n')
      case Lines(lines) => lines
  }

  function StepText(i: nat, n: nat, line: string): string {
    "Step " + NatToString(i) + "/" + NatToString(n) + ": " + line
  }

  /** The events reported for the first lines of a log of `total` lines:
      a progress report and a notice per line. */
  function StreamEvents(lines: seq<string>, total: nat): seq<Event>
    decreases |lines|
  {
    if lines == [] then []
    else
      var n := |lines|;
      StreamEvents(lines[..n - 1], total) + [Progress(n, total, lines[n - 1]), Info(StepText(n, total, lines[n - 1]))]
  }

  /** The loop of `stream_analysis_log` (lines 186-199): report each line
      with its step number, collect it, and join what was collected. */
  method ReportLines(lines: seq<string>) returns (text: string, events: seq<Event>)
    ensures text == Join("\n", lines)
    ensures events == StreamEvents(lines, |lines|)
  {
    var results: seq<string> := [];
    events := [];
    for i := 0 to |lines|
      invariant results == lines[..i]
      invariant events == StreamEvents(lines[..i], |lines|)
    {
      assert lines[..i + 1][..i] == lines[..i];
      var line := lines[i];
      results := results + [line];
      events := events + [Progress(i + 1, |lines|, line), Info(StepText(i + 1, |lines|, line))];
    }
    assert lines[..|lines|] == lines;
    text := Join("\n", results);
  }

  /** Progress is reported for steps 1..n in order, with total n, each
      step followed by its notice. */
  lemma {:induction false} StreamEventsNumbered(lines: seq<string>, total: nat)
    ensures var e := StreamEvents(lines, total);
            && |e| == 2 * |lines|
            && forall i :: 0 <= i < |lines| ==>
                 e[2 * i] == Progress(i + 1, total, lines[i]) && e[2 * i + 1] == Info(StepText(i + 1, total, lines[i]))
    decreases |lines|
  {
    if lines != [] {
      var n := |lines|;
      StreamEventsNumbered(lines[..n - 1], total);
      var e := StreamEvents(lines, total);
      var prev := StreamEvents(lines[..n - 1], total);
      forall i | 0 <= i < n
        ensures e[2 * i] == Progress(i + 1, total, lines[i]) && e[2 * i + 1] == Info(StepText(i + 1, total, lines[i]))
      {
        if i < n - 1 {
          assert lines[..n - 1][i] == lines[i];
          assert e[2 * i] == prev[2 * i] && e[2 * i + 1] == prev[2 * i + 1];
        }
      }
    }
  }

  /** A string log comes back unchanged. */
  lemma StringLogReturnedUnchanged(text: string)
    ensures Join("\n", Split(text, '\n')) == text
  {
    JoinSplit(text, '\n');
  }

  // ---------------------------------------------------------------------
  // The server state and its tools
  // ---------------------------------------------------------------------

  class Server {
    const db: Table
    /** `registered_clients`: client id to callback url, in registration order. */
    var registeredClients: Dict<string>
    /** `pending_callbacks`: open sampling token to its protein id. */
    var pendingCallbacks: map<string, string>

    constructor (db: Table)
      ensures this.db == db && registeredClients == [] && pendingCallbacks == map[]
    {
      this.db := db;
      registeredClients := [];
      pendingCallbacks := map[];
    }

    /** `register_client`: the last registration of an id wins; the
        ledger is untouched. */
    method RegisterClient(clientId: string, callbackUrl: string) returns (reply: string, events: seq<Event>)
      modifies this
      ensures registeredClients == Put(old(registeredClients), clientId, callbackUrl)
      ensures pendingCallbacks == old(pendingCallbacks)
      ensures events == [Info("Client '" + clientId + "' registered for notifications at " + callbackUrl)]
      ensures reply == "Successfully registered client '" + clientId + "'"
    {
      registeredClients := Put(registeredClients, clientId, callbackUrl);
      events := [Info("Client '" + clientId + "' registered for notifications at " + callbackUrl)];
      reply := "Successfully registered client '" + clientId + "'";
    }

    /** `trigger_notification`: one notice per registered client, in
        registration order, and a count equal to the registry's size; it
        changes nothing. */
    method TriggerNotification() returns (reply: string, events: seq<Event>)
      ensures events == NotificationEvents(registeredClients)
      ensures reply == "Notifications sent to " + NatToString(|registeredClients|) + " clients"
    {
      events := [];
      for i := 0 to |registeredClients|
        invariant events == NotificationEvents(registeredClients[..i])
      {
        assert registeredClients[..i + 1][..i] == registeredClients[..i];
        var (clientId, callbackUrl) := registeredClients[i];
        events := events + [Info(NotificationText(clientId, callbackUrl))];
      }
      assert registeredClients[..|registeredClients|] == registeredClients;
      reply := "Notifications sent to " + NatToString(|registeredClients|) + " clients";
    }

    /** `find_protein`: "p53" in any case elicits a choice between the
        human and the mouse protein; any other name is searched. */
    method FindProtein(proteinName: string) returns (r: Result<FindResult>)
      ensures Lower(proteinName) == "p53" ==>
                r == Ok(Elicitation("Multiple proteins match 'p53'. Please specify:", P53Choices))
      ensures Lower(proteinName) != "p53" ==> r == FindOutcome(Lower(proteinName), FindMatches(db, Lower(proteinName)))
    {
      var query := Lower(proteinName);
      if query == "p53" {
        return Ok(Elicitation("Multiple proteins match 'p53'. Please specify:", P53Choices));
      }
      var matches: seq<(string, string)> := [];
      for i := 0 to |db|
        invariant FindMatches(db[..i], query) == Ok(matches)
      {
        assert db[..i + 1][..i] == db[..i];
        assert FindMatches(db[..i + 1], query) == MatchStep(Ok(matches), db[i], query);
        var (pid, data) := db[i];
        var name: string;
        if "name" !in data {
          name := "";
        } else if data["name"].Lines? {
          FindMatchesRaiseStops(db, query, i + 1);
          return Err("'list' object has no attribute 'lower'");
        } else {
          name := data["name"].s;
        }
        if Contains(Lower(name), query) {
          if "name" !in data {
            assert query == "" by {
              assert Contains(Lower(name), query) <==> exists j :: OccursAt(Lower(name), query, j);
            }
            FindMatchesRaiseStops(db, query, i + 1);
            return Err("'name'");
          }
          matches := matches + [(pid, data["name"].s)];
        } else if "name" !in data {
          assert query != "" by { EmptyIsContained(Lower(name)); }
        }
      }
      assert db[..|db|] == db;
      r := FindOutcome(query, Ok(matches));
    }

    /** `generate_hypothesis`: an unknown id raises and leaves the ledger
        as it was; a known id opens `token` for it (before the prompt is
        built, so a record without `name` or `function` raises with the
        token already open) and hands the token out with the prompt. */
    method GenerateHypothesis(pid: string, token: string) returns (r: Result<SamplingRequest>)
      modifies this
      ensures registeredClients == old(registeredClients)
      ensures !Has(db, pid) ==> r == Err("Unknown protein_id: " + pid) && pendingCallbacks == old(pendingCallbacks)
      ensures Has(db, pid) ==> pendingCallbacks == old(pendingCallbacks)[token := pid]
      ensures Has(db, pid) && "name" !in At(db, pid) ==> r == Err("'name'")
      ensures Has(db, pid) && "name" in At(db, pid) && "function" !in At(db, pid) ==> r == Err("'function'")
      ensures r.Ok? <==> Has(db, pid) && "name" in At(db, pid) && "function" in At(db, pid)
      ensures r.Ok? ==>
                && r.value.callbackToken == token
                && r.value.prompt == "The protein " + Show(At(db, pid)["name"]) + " is known to "
                                     + Show(At(db, pid)["function"]) + ". Generate a novel research hypothesis."
    {
      if !Has(db, pid) {
        return Err("Unknown protein_id: " + pid);
      }
      var info := At(db, pid);
      pendingCallbacks := pendingCallbacks[token := pid];
      if "name" !in info {
        return Err("'name'");
      }
      if "function" !in info {
        return Err("'function'");
      }
      var prompt := "The protein " + Show(info["name"]) + " is known to " + Show(info["function"])
                    + ". Generate a novel research hypothesis.";
      return Ok(SamplingRequest(prompt, token));
    }

    /** `submit_sampling_result`: a pending token is closed (only that
        entry leaves the ledger) and its protein id comes back with the
        answer; any other token raises and changes nothing. */
    method SubmitSamplingResult(token: string, llmResult: string) returns (r: Result<SamplingComplete>)
      modifies this
      ensures registeredClients == old(registeredClients)
      ensures token !in old(pendingCallbacks) ==>
                r == Err("Invalid callback token") && pendingCallbacks == old(pendingCallbacks)
      ensures token in old(pendingCallbacks) ==>
                && r == Ok(SamplingComplete(old(pendingCallbacks)[token], llmResult, "success"))
                && pendingCallbacks == old(pendingCallbacks) - {token}
    {
      if token !in pendingCallbacks {
        return Err("Invalid callback token");
      }
      var pid := pendingCallbacks[token];
      pendingCallbacks := pendingCallbacks - {token};
      return Ok(SamplingComplete(pid, llmResult, "success"));
    }

    /** `stream_analysis_log`: an unknown id raises; otherwise one
        progress report and one notice per log line, numbered 1..n out of
        n, and the lines joined by newlines. */
    method StreamAnalysisLog(pid: string) returns (r: Result<string>, events: seq<Event>)
      ensures !Has(db, pid) ==> r == Err("Unknown protein_id: " + pid) && events == []
      ensures Has(db, pid) ==>
                var lines := LogLines(pid, At(db, pid));
                r == Ok(Join("\n", lines)) && events == StreamEvents(lines, |lines|)
    {
      if !Has(db, pid) {
        return Err("Unknown protein_id: " + pid), [];
      }
      var text;
      text, events := ReportLines(LogLines(pid, At(db, pid)));
      r := Ok(text);
    }
  }

  // ---------------------------------------------------------------------
  // Scenarios over the state
  // ---------------------------------------------------------------------

  /** A token is closed exactly once: the hypothesis for a described
      protein opens a fresh token, the first submission with it returns
      that protein's id and the answer, and a second submission raises. */
  method SamplingClosesOnce(s: Server, pid: string, token: string, answer: string)
      returns (first: Result<SamplingComplete>, second: Result<SamplingComplete>)
    requires Has(s.db, pid) && "name" in At(s.db, pid) && "function" in At(s.db, pid)
    requires token !in s.pendingCallbacks
    modifies s
    ensures first == Ok(SamplingComplete(pid, answer, "success"))
    ensures second == Err("Invalid callback token")
    ensures s.pendingCallbacks == old(s.pendingCallbacks)
  {
    var request := s.GenerateHypothesis(pid, token);
    assert |s.pendingCallbacks.Keys| == |old(s.pendingCallbacks).Keys| + 1;
    first := s.SubmitSamplingResult(request.value.callbackToken, answer);
    second := s.SubmitSamplingResult(request.value.callbackToken, answer);
  }

  /** Writing a new key and then an old one: the old key keeps its place
      with the new value. */
  lemma PutTwoThenFirstAgain(a: string, urlA: string, b: string, urlB: string, urlA2: string)
    requires a != b
    ensures Put(Put(Put([], a, urlA), b, urlB), a, urlA2) == [(a, urlA2), (b, urlB)]
  {
    var d1: Dict<string> := [(a, urlA)];
    var d2: Dict<string> := [(a, urlA), (b, urlB)];
    assert Put([], a, urlA) == d1 by {
      PutNewKey<string>([], a, urlA);
    }
    assert Put(d1, b, urlB) == d2 by {
      assert Keys(d1) == [a];
      PutNewKey(d1, b, urlB);
      assert d1 + [(b, urlB)] == d2;
    }
    assert Put(d2, a, urlA2) == [(a, urlA2), (b, urlB)] by {
      PutAt(d2, a, urlA2, 0);
    }
  }

  lemma SentToTwo()
    ensures "Notifications sent to " + NatToString(2) + " clients" == "Notifications sent to 2 clients"
  {
    assert NatToString(2) == "2";
  }

  /** Registering ids and then triggering notifies each id once, with the
      url of its last registration. */
  method RegisterThenNotify(s: Server, a: string, urlA: string, b: string, urlB: string, urlA2: string)
      returns (reply: string, events: seq<Event>)
    requires s.registeredClients == []
    requires a != b
    modifies s
    ensures events == [Info(NotificationText(a, urlA2)), Info(NotificationText(b, urlB))]
    ensures reply == "Notifications sent to 2 clients"
  {
    var _, _ := s.RegisterClient(a, urlA);
    var _, _ := s.RegisterClient(b, urlB);
    var _, _ := s.RegisterClient(a, urlA2);
    PutTwoThenFirstAgain(a, urlA, b, urlB, urlA2);
    reply, events := s.TriggerNotification();
    SentToTwo();
  }
}
