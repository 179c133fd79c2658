/**
 * `FactCheckerService`: the search tool offered to the model, its handler,
 * and `fact_check`, which runs the tool loop (streaming exactly when a
 * callback is given), parses the reply and fills in the timings.
 */
module FactChecker {
  import opened Wrappers
  import opened Text
  import opened Json
  import opened Foreign
  import opened Domain
  import opened Orchestrator
  import opened Reconciler

  // Formatting search results

  const BlockSeparator := "\n---\n"

  /** One result as the model reads it. */
  function Block(r: SearchResult): string {
    "[Source: " + r.title + "]\nURL: " + r.url + "\n" + r.description + "\n"
  }

  function Blocks(results: seq<SearchResult>): (blocks: seq<string>)
    ensures |blocks| == |results|
    ensures forall i | 0 <= i < |results| :: blocks[i] == Block(results[i])
  {
    if results == [] then [] else [Block(results[0])] + Blocks(results[1..])
  }

  /** `_format_search_results(results)` */
  function FormatSearchResults(results: seq<SearchResult>): string {
    Join(Blocks(results), BlockSeparator)
  }

  /**
   * No results format to the empty text, one result to its block, and each
   * further result adds the separator and its block at the end.
   */
  lemma FormatSearchResultsSpec(results: seq<SearchResult>, r: SearchResult)
    ensures FormatSearchResults([]) == ""
    ensures FormatSearchResults([r]) == Block(r)
    ensures results != [] ==> FormatSearchResults(results + [r]) == FormatSearchResults(results) + BlockSeparator + Block(r)
  {
    if results != [] {
      JoinSnoc(Blocks(results), Block(r), BlockSeparator);
      assert Blocks(results + [r]) == Blocks(results) + [Block(r)];
    }
  }

  lemma {:induction false} JoinSnoc(parts: seq<string>, p: string, sep: string)
    requires parts != []
    ensures Join(parts + [p], sep) == Join(parts, sep) + sep + p
    decreases |parts|
  {
    if |parts| == 1 {
      assert (parts + [p])[1..] == [p];
    } else {
      assert (parts + [p])[1..] == parts[1..] + [p];
      JoinSnoc(parts[1..], p, sep);
    }
  }

  // The tool definition

  const ToolName := "brave_search"

  /** The schema of the `count` parameter. */
  const CountSchema := JObject([
    ("type", JString("integer")),
    ("description", JString("Number of search results to return. Default is 5.")),
    ("default", JInt(5)),
    ("minimum", JInt(1)),
    ("maximum", JInt(10))])

  /** The schema of the `query` parameter. */
  const QuerySchema := JObject([
    ("type", JString("string")),
    ("description", JString("The search query to find information about the statement. "
                            + "Include key facts or claims from the statement in the query."))])

  const Parameters := JObject([
    ("type", JString("object")),
    ("properties", JObject([("query", QuerySchema), ("count", CountSchema)])),
    ("required", JArray([JString("query")]))])

  const FunctionSchema := JObject([
    ("name", JString(ToolName)),
    ("description", JString("Search the web using Brave Search to find evidence and information about a statement or claim. "
                            + "Use this when you need to fact-check a statement by finding relevant sources and evidence.")),
    ("parameters", Parameters)])

  /** `_get_search_tool_definition()` */
  function SearchToolDefinition(): Json {
    JObject([("type", JString("function")), ("function", FunctionSchema)])
  }

  /** `dict.get` on fields whose earlier keys all differ from the wanted one. */
  lemma GetAt(fields: seq<(string, Json)>, k: nat)
    requires k < |fields|
    requires forall j | 0 <= j < k :: fields[j].0 != fields[k].0
    ensures Get(fields, fields[k].0) == Some(fields[k].1)
    decreases k
  {
    if k > 0 {
      GetAt(fields[1..], k - 1);
    }
  }

  /** The tool schema exposes one function, `brave_search`, with the parameters below. */
  lemma SearchToolDefinitionSpec()
    ensures SearchToolDefinition().JObject? && |SearchToolDefinition().fields| == 2
    ensures Get(SearchToolDefinition().fields, "type") == Some(JString("function"))
    ensures Get(SearchToolDefinition().fields, "function") == Some(FunctionSchema)
    ensures Get(FunctionSchema.fields, "name") == Some(JString(ToolName))
    ensures Get(FunctionSchema.fields, "parameters") == Some(Parameters)
  {
    GetAt(SearchToolDefinition().fields, 1);
    GetAt(FunctionSchema.fields, 2);
  }

  /** Two parameters, `query` and `count`; only `query` is required, and it is a string. */
  lemma ParametersSpec()
    ensures Get(Parameters.fields, "required") == Some(JArray([JString("query")]))
    ensures Get(Parameters.fields, "properties") == Some(JObject([("query", QuerySchema), ("count", CountSchema)]))
    ensures Get(QuerySchema.fields, "type") == Some(JString("string"))
  {
    GetAt(Parameters.fields, 1);
    GetAt(Parameters.fields, 2);
  }

  /** `count` is an integer from 1 to 10 with default 5. */
  lemma CountSchemaSpec()
    ensures Get(CountSchema.fields, "type") == Some(JString("integer"))
    ensures Get(CountSchema.fields, "default") == Some(JInt(5))
    ensures Get(CountSchema.fields, "minimum") == Some(JInt(1))
    ensures Get(CountSchema.fields, "maximum") == Some(JInt(10))
  {
    var fields := CountSchema.fields;
    CountKeys();
    GetAt(fields, 0);
    GetAt(fields, 2);
    GetAt(fields, 3);
    GetAt(fields, 4);
  }

  /** The keys of the `count` schema are distinct. */
  lemma CountKeys()
    ensures forall i, j | 0 <= i < j < |CountSchema.fields| :: CountSchema.fields[i].0 != CountSchema.fields[j].0
  {
    var keys := ["type", "description", "default", "minimum", "maximum"];
    assert forall i | 0 <= i < 5 :: CountSchema.fields[i].0 == keys[i];
    assert keys[2][0] != keys[3][0] && keys[2][0] != keys[4][0] && keys[3][1] != keys[4][1];
  }

  // The tool handler

  /**
   * The services `fact_check` calls: the JSON library and `json.dumps(v,
   * indent=2)`; `search_client.search(query, count=count)` with the time it
   * took (`time.time()` around it); and the model, as the orchestrator sees it.
   */
  datatype Services = Services(
    lib: Library,
    dumpsIndented: Json -> string,
    search: (Json, Json) -> (Result<seq<SearchResult>, string>, real),
    complete: seq<Message> -> Result<Reply, string>,
    stream: seq<Message> -> Result<StreamReply, string>,
    plain: seq<Message> -> Result<Reply, string>)

  const HandlerQualName := "FactCheckerService._handle_brave_search()"

  /** The first keyword that is neither `query` nor `count`. */
  function UnexpectedKeyword(fields: seq<(string, Json)>): (r: Option<string>)
    ensures r.None? <==> forall k | 0 <= k < |fields| :: fields[k].0 == "query" || fields[k].0 == "count"
    ensures r.Some? ==> r.value != "query" && r.value != "count" && exists k | 0 <= k < |fields| :: fields[k].0 == r.value
  {
    if fields == [] then None
    else if fields[0].0 != "query" && fields[0].0 != "count" then Some(fields[0].0)
    else UnexpectedKeyword(fields[1..])
  }

  /**
   * Binding `handler(**args)` to `(query, count=5)`: the TypeErrors CPython
   * raises for a non-mapping, an unknown keyword and a missing `query`.
   */
  function BindSearchArgs(args: Json): (r: Result<(Json, Json), string>)
    ensures r.Success? <==> args.JObject? && UnexpectedKeyword(args.fields).None? && Get(args.fields, "query").Some?
    ensures r.Success? ==> r.value == (Get(args.fields, "query").value, GetOr(args.fields, "count", JInt(5)))
  {
    if !args.JObject? then
      Failure(HandlerQualName + " argument after ** must be a mapping, not " + TypeName(args))
    else
      match UnexpectedKeyword(args.fields)
      case Some(k) => Failure(HandlerQualName + " got an unexpected keyword argument '" + k + "'")
      case None =>
        match Get(args.fields, "query")
        case None => Failure(HandlerQualName + " missing 1 required positional argument: 'query'")
        case Some(q) => Success((q, GetOr(args.fields, "count", JInt(5))))
  }

  /** The structured `results` entry of one result. */
  function ResultItem(r: SearchResult): Json {
    JObject([("title", JString(r.title)), ("url", JString(r.url)), ("description", JString(r.description))])
  }

  /** The object a successful search is reported as. */
  function SearchPayload(results: seq<SearchResult>, elapsed: real): Json {
    JObject([("formatted", JString(FormatSearchResults(results))),
             ("results", JArray(seq(|results|, i requires 0 <= i < |results| => ResultItem(results[i])))),
             ("search_time", JFloat(elapsed))])
  }

  /** The object a failed search is reported as. */
  function ErrorPayload(e: string): Json {
    JObject([("error", JString(e))])
  }

  /**
   * `_handle_brave_search(**args)`: once its arguments bind it never raises;
   * it returns the JSON text of the search payload, or of the error payload
   * when the search raised.
   */
  function HandleBraveSearch(svc: Services, args: Json): (r: Result<Json, string>)
    ensures r.Failure? <==> BindSearchArgs(args).Failure?
    ensures r.Failure? ==> r.error == BindSearchArgs(args).error
    ensures r.Success? ==> r.value.JString?
    ensures r.Success? && svc.search(BindSearchArgs(args).value.0, BindSearchArgs(args).value.1).0.Success? ==>
              var (outcome, elapsed) := svc.search(BindSearchArgs(args).value.0, BindSearchArgs(args).value.1);
              r.value == JString(svc.dumpsIndented(SearchPayload(outcome.value, elapsed)))
    ensures r.Success? && svc.search(BindSearchArgs(args).value.0, BindSearchArgs(args).value.1).0.Failure? ==>
              r.value == JString(svc.lib.dumps(ErrorPayload(svc.search(BindSearchArgs(args).value.0, BindSearchArgs(args).value.1).0.error)))
  {
    match BindSearchArgs(args)
    case Failure(e) => Failure(e)
    case Success((query, count)) =>
      var (outcome, elapsed) := svc.search(query, count);
      match outcome
      case Success(results) => Success(JString(svc.dumpsIndented(SearchPayload(results, elapsed))))
      case Failure(e) => Success(JString(svc.lib.dumps(ErrorPayload(e))))
  }

  /** The tool loop's view of the service: one handler, `brave_search`. */
  function ToolEnv(svc: Services): Env {
    Env(svc.lib, map[ToolName := (a: Json) => HandleBraveSearch(svc, a)], svc.complete, svc.stream, svc.plain)
  }

  /**
   * When the JSON text of a payload decodes back to the payload, the tool
   * loop harvests exactly the search's elapsed time from a successful search
   * and nothing from a failed one.
   */
  lemma BraveSearchTime(svc: Services, args: Json)
    requires BindSearchArgs(args).Success?
    requires var (outcome, elapsed) := svc.search(BindSearchArgs(args).value.0, BindSearchArgs(args).value.1);
             outcome.Success? ==> Loads(svc.lib, svc.dumpsIndented(SearchPayload(outcome.value, elapsed)))
                                  == Success(SearchPayload(outcome.value, elapsed))
    requires var (outcome, elapsed) := svc.search(BindSearchArgs(args).value.0, BindSearchArgs(args).value.1);
             outcome.Failure? ==> Loads(svc.lib, svc.lib.dumps(ErrorPayload(outcome.error))) == Success(ErrorPayload(outcome.error))
    ensures var (outcome, elapsed) := svc.search(BindSearchArgs(args).value.0, BindSearchArgs(args).value.1);
            Harvest(svc.lib, HandleBraveSearch(svc, args).value.s) == (if outcome.Success? then elapsed else 0.0)
  {
    var (outcome, elapsed) := svc.search(BindSearchArgs(args).value.0, BindSearchArgs(args).value.1);
    if outcome.Success? {
      GetAt(SearchPayload(outcome.value, elapsed).fields, 2);
    } else {
      assert Get(ErrorPayload(outcome.error).fields, "search_time") == None;
    }
  }

  // fact_check

  const SystemPrompt :=
    "\n"
    + "You are an expert fact-checker. Your task is to analyze statements and determine their truthfulness.\n"
    + "\n"
    + "When a user provides a statement to fact-check:\n"
    + "1. Use the brave_search function to search for evidence and information about the statement\n"
    + "2. Analyze the search results carefully\n"
    + "3. Return a single valid JSON object (only JSON) that conforms to the following schema:\n"
    + "\n"
    + "{\n"
    + "  \"verdict\": \"TRUE|MOSTLY_TRUE|PARTIALLY_TRUE|MOSTLY_FALSE|FALSE|UNVERIFIABLE\",\n"
    + "  \"explanation\": \"A detailed explanation with inline citation markers like [1], [2], ... referencing the search results\",\n"
    + "  \"context\": \"Optional additional context or nuance\",\n"
    + "  \"references\": [\n"
    + "    { \"title\": \"Source title\", \"url\": \"https://...\" },\n"
    + "    ...\n"
    + "  ],\n"
    + "  \"search_time\": 0.0,\n"
    + "  \"analysis_time\": 0.0\n"
    + "}\n"
    + "\n"
    + "- Only return JSON (no surrounding text)\n"
    + "- Use standard HTTP/HTTPS URLs for references from the search results\n"
    + "- Base your verdict on the evidence found in the search results\n"
    + "- If insufficient evidence is found, use UNVERIFIABLE verdict\n"

  const MaxIterations := 5

  /** The two messages `fact_check` starts the conversation with. */
  function Messages(statement: string): seq<Message> {
    [Chat("system", Some(SystemPrompt)), Chat("user", Some("Please fact-check this statement: " + statement))]
  }

  /** The metadata of the last event that carries any. */
  function LastMetadata(events: seq<Event>): Option<real> {
    if events == [] then None
    else if events[|events| - 1].metadata.Some? then events[|events| - 1].metadata
    else LastMetadata(events[..|events| - 1])
  }

  /**
   * The reply text and search time the tool loop hands back, or the
   * exception it raised: the streamed text is every chunk of every turn, the
   * search time that of the last metadata (0.0 without one).
   */
  function Orchestrated(svc: Services, statement: string, streaming: bool): Result<(string, real), string> {
    if streaming then
      var run := Streamed(ToolEnv(svc), Messages(statement), 0, MaxIterations, 0.0);
      match run.failure
      case Some(e) => Failure(e)
      case None => Success((EventText(run.events), LastMetadata(run.events).GetOr(0.0)))
    else Buffered(ToolEnv(svc), Messages(statement), 0, MaxIterations, 0.0).result
  }

  function ErrorText(e: string): string {
    "Error during analysis: " + e
  }

  /** `max(0.0, x)` */
  function NonNegative(x: real): (r: real)
    ensures r >= 0.0 && r >= x && (r == x || r == 0.0)
  {
    if x > 0.0 then x else 0.0
  }

  /**
   * `fact_check(statement, stream_callback=...)` when the whole run takes
   * `totalTime`: the parsed result, or the error result, with the search
   * time overwritten by the tool loop's and the analysis time by the rest.
   */
  function FactCheckResult(svc: Services, statement: string, streaming: bool, totalTime: real): AnalysisResult {
    var (analysis, searchTime) :=
      match Orchestrated(svc, statement, streaming)
      case Failure(e) => (Fallback(ErrorText(e)), 0.0)
      case Success((text, searchTime)) =>
        match ParseOutcome(svc.lib, text)
        case Failure(e) => (Fallback(ErrorText(e)), searchTime)
        case Success(parsed) => (parsed, searchTime);
    analysis.(searchTime := searchTime, analysisTime := NonNegative(totalTime - searchTime))
  }

  /**
   * What `fact_check` always returns: a valid result whose search time is
   * the tool loop's (0.0 when the loop raised) and whose analysis time is
   * the rest of the run, never negative; any exception in the loop or the
   * parse becomes an UNVERIFIABLE result with the error text and no
   * references; otherwise it is the parsed result.
   */
  lemma FactCheckSpec(svc: Services, statement: string, streaming: bool, totalTime: real)
    ensures var r := FactCheckResult(svc, statement, streaming, totalTime);
      var o := Orchestrated(svc, statement, streaming);
      && r.Valid()
      && r.searchTime == (if o.Success? then o.value.1 else 0.0)
      && r.analysisTime >= 0.0 && r.analysisTime >= totalTime - r.searchTime
      && (r.analysisTime == totalTime - r.searchTime || r.analysisTime == 0.0)
      && (o.Failure? ==> r.verdict == Unverifiable && r.explanation == ErrorText(o.error)
                         && r.context == None && r.references == [])
      && (o.Success? && ParseOutcome(svc.lib, o.value.0).Failure? ==>
            r.verdict == Unverifiable && r.explanation == ErrorText(ParseOutcome(svc.lib, o.value.0).error)
            && r.context == None && r.references == [])
      && (o.Success? && ParseOutcome(svc.lib, o.value.0).Success? ==>
            var p := ParseOutcome(svc.lib, o.value.0).value;
            r.verdict == p.verdict && r.explanation == p.explanation && r.context == p.context && r.references == p.references)
  {
  }

  /** The `async for chunk, metadata in ...` loop of `fact_check`: the text accumulated and the last metadata seen. */
  method AccumulateStream(events: seq<Event>) returns (accumulated: string, metadata: Option<real>)
    ensures accumulated == EventText(events)
    ensures metadata == LastMetadata(events)
  {
    accumulated := "";
    metadata := None;
    for i := 0 to |events|
      invariant accumulated == EventText(events[..i])
      invariant metadata == LastMetadata(events[..i])
    {
      assert events[..i + 1][..i] == events[..i];
      if events[i].text != "" {
        accumulated := accumulated + events[i].text;
      }
      if events[i].metadata.Some? {
        metadata := events[i].metadata;
      }
    }
    assert events[..|events|] == events;
  }

  /** The tool loop `fact_check` runs: the reply text and search time, or the exception it raised. */
  method RunToolLoop(svc: Services, statement: string, streaming: bool) returns (response: Result<(string, real), string>)
    ensures response == Orchestrated(svc, statement, streaming)
  {
    var env := ToolEnv(svc);
    var messages := Messages(statement);
    if streaming {
      var events, failure := ChatCompletionWithToolsStreaming(env, messages, MaxIterations);
      var accumulated, metadata := AccumulateStream(events);
      if failure.Some? {
        response := Failure(failure.value);
      } else {
        response := Success((accumulated, metadata.GetOr(0.0)));
      }
    } else {
      response := ChatCompletionWithTools(env, messages, MaxIterations);
    }
  }

  /** `fact_check`: the tool loop, the parse and the timings. */
  method FactCheck(svc: Services, statement: string, streaming: bool, totalTime: real) returns (r: AnalysisResult)
    ensures r == FactCheckResult(svc, statement, streaming, totalTime)
  {
    var response := RunToolLoop(svc, statement, streaming);
    var analysis: AnalysisResult;
    var searchTime := 0.0;
    if response.Failure? {
      analysis := Fallback(ErrorText(response.error));
    } else {
      searchTime := response.value.1;
      var parsed := Parse(svc.lib, response.value.0);
      if parsed.Failure? {
        analysis := Fallback(ErrorText(parsed.error));
      } else {
        analysis := parsed.value;
      }
    }
    r := analysis.(searchTime := searchTime, analysisTime := NonNegative(totalTime - searchTime));
  }
}
