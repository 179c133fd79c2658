/**
 * The legacy command-line agent: its own query sanitiser, the `search_web`
 * tool, `search_web_direct`, and the reference-line split in `main`. The
 * HTTP response is a parameter (the decoded body, or the text of the
 * exception the `try` catches); `time.time()` enters as the elapsed time.
 */
module WebSearchAgent {
  import opened Wrappers
  import opened Text
  import opened Json
  import opened Foreign
  import opened Folds
  import opened SearchCache
  import opened TagParser

  // ---------------------------------------------------------------------------
  // sanitize_query

  const MaxQueryLength := 500

  /** `\w` in a `str` pattern: ASCII letters, digits and `_`, and the Unicode word characters. */
  predicate IsWordChar(lib: Library, c: char) {
    ('a' <= c <= 'z') || ('A' <= c <= 'Z') || ('0' <= c <= '9') || c == '_'
    || (c >= '\U{80}' && lib.isUnicodeWord(c))
  }

  /** The characters `[\w\s-]` that the agent's sanitiser keeps. */
  predicate QueryChar(lib: Library, c: char) {
    IsWordChar(lib, c) || IsSpace(c) || c == '-'
  }

  /** What one character leaves behind under `re.sub(r'[^\w\s-]', '', query)`. */
  function KeepQueryChar(lib: Library, c: char): string {
    if QueryChar(lib, c) then [c] else ""
  }

  /** `re.sub(r'[^\w\s-]', '', query)` */
  function KeepQueryChars(lib: Library, q: string): string {
    FlatMap(c => KeepQueryChar(lib, c), q)
  }

  /**
   * The substitution keeps exactly the word, whitespace and `-` characters,
   * in order: nothing else survives, and a query made only of them comes back
   * unchanged.
   */
  lemma {:induction false} KeepQueryCharsSpec(lib: Library, q: string)
    ensures |KeepQueryChars(lib, q)| <= |q|
    ensures forall k | 0 <= k < |KeepQueryChars(lib, q)| :: QueryChar(lib, KeepQueryChars(lib, q)[k])
    ensures (forall k | 0 <= k < |q| :: QueryChar(lib, q[k])) ==> KeepQueryChars(lib, q) == q
  {
    if q != [] {
      var init := q[..|q| - 1];
      KeepQueryCharsSpec(lib, init);
      assert KeepQueryChars(lib, q) == KeepQueryChars(lib, init) + KeepQueryChar(lib, q[|q| - 1]);
      if forall k | 0 <= k < |q| :: QueryChar(lib, q[k]) {
        assert forall k | 0 <= k < |init| :: init[k] == q[k];
        assert q == init + [q[|q| - 1]];
      }
    }
  }

  /** `sanitize_query(query)`: delete everything outside `[\w\s-]`, keep the first 500 characters; no trimming. */
  function SanitizeAgentQuery(lib: Library, query: string): (r: string)
    ensures |r| <= MaxQueryLength
  {
    Take(KeepQueryChars(lib, query), MaxQueryLength)
  }

  /**
   * The output holds only word, whitespace and `-` characters and is a
   * prefix of the filtered query; a query already in that form and within
   * the limit, surrounding whitespace included, is returned as it is, so
   * sanitising twice is sanitising once.
   */
  lemma SanitizeAgentQuerySpec(lib: Library, query: string)
    ensures var r := SanitizeAgentQuery(lib, query);
            && (forall k | 0 <= k < |r| :: QueryChar(lib, r[k]))
            && r == KeepQueryChars(lib, query)[..|r|]
            && ((|query| <= MaxQueryLength && forall k | 0 <= k < |query| :: QueryChar(lib, query[k])) ==> r == query)
            && SanitizeAgentQuery(lib, r) == r
  {
    KeepQueryCharsSpec(lib, query);
    var r := SanitizeAgentQuery(lib, query);
    KeepQueryCharsSpec(lib, r);
  }

  // ---------------------------------------------------------------------------
  // search_web

  const TestSearchText := "This is a test web search result. Please provide a Brave API key to get real search results."
  const SearchErrorText := "Error performing web search. Please try again."
  const QueryPrefix := "fact check "
  const ResultSeparator := "\n---\n"

  /** The two formatting primitives `search_web` uses. */
  datatype Formatting = Formatting(
    /** `str(v)` for a decoded value that is not a `str` (`None`, `True`, `3.5`, a list or dict display). */
    display: Json -> string,
    /** `f"{x:.2f}"` */
    fixed2: real -> string
  )

  /** `str(v)` */
  function PyStr(fmt: Formatting, v: Json): string {
    if v.JString? then v.s else fmt.display(v)
  }

  /** One formatted result of `search_web`, in a list for the fold; a non-dict web result raises AttributeError. */
  function ResultBlock(fmt: Formatting, item: Json): (r: Result<seq<string>, string>)
    ensures r.Failure? <==> !item.JObject?
    ensures r.Success? ==> |r.value| == 1
  {
    if !item.JObject? then Failure(NoAttribute(item, "get"))
    else
      var title := PyStr(fmt, GetOr(item.fields, "title", JString("")));
      var description := PyStr(fmt, GetOr(item.fields, "description", JString("")));
      var url := PyStr(fmt, GetOr(item.fields, "url", JString("")));
      Success(["[Source: " + title + "]\nURL: " + url + "\n" + description + "\n"])
  }

  /** The blocks of all web results, or the AttributeError of the first that is not a dict. */
  function ResultBlocks(fmt: Formatting, items: seq<Json>): Result<seq<string>, string> {
    TryFlatMap(item => ResultBlock(fmt, item), items)
  }

  function SearchHeader(fmt: Formatting, elapsed: real): string {
    "Search completed in " + fmt.fixed2(elapsed) + " seconds.\n\n"
  }

  /** What a tool call did: the query it sent (None when no request was made), and its outcome. */
  datatype ToolRun = ToolRun(request: Option<string>, output: Result<string, string>)

  /**
   * `search_web`: no key gives the test text without a request; otherwise one
   * request for `"fact check " + sanitize_query(web_query)`, whose failure
   * gives the error text and whose results are formatted after a timing line.
   * A body whose results cannot be read raises.
   */
  function SearchWebOutcome(lib: Library, fmt: Formatting, apiKey: Option<string>, webQuery: string,
                            response: Result<Json, string>, elapsed: real): ToolRun {
    if apiKey.None? then ToolRun(None, Success(TestSearchText))
    else
      var query := QueryPrefix + SanitizeAgentQuery(lib, webQuery);
      match response
      case Failure(_) => ToolRun(Some(query), Success(SearchErrorText))
      case Success(data) =>
        match WebItems(data)
        case Failure(e) => ToolRun(Some(query), Failure(e))
        case Success(items) =>
          match ResultBlocks(fmt, items)
          case Failure(e) => ToolRun(Some(query), Failure(e))
          case Success(blocks) => ToolRun(Some(query), Success(SearchHeader(fmt, elapsed) + Join(blocks, ResultSeparator)))
  }

  /** The loop raises exactly when some web result is not a dict; otherwise there is one block per result, in order. */
  lemma ResultBlocksSpec(fmt: Formatting, items: seq<Json>)
    ensures ResultBlocks(fmt, items).Failure? <==> exists k | 0 <= k < |items| :: !items[k].JObject?
    ensures ResultBlocks(fmt, items).Success? ==>
              (&& |ResultBlocks(fmt, items).value| == |items|
               && forall k | 0 <= k < |items| :: [ResultBlocks(fmt, items).value[k]] == ResultBlock(fmt, items[k]).value)
  {
    TryFlatMapFailure(item => ResultBlock(fmt, item), items);
    if ResultBlocks(fmt, items).Success? {
      TryFlatMapOnes(item => ResultBlock(fmt, item), items);
    }
  }

  /**
   * The tool sends a request exactly when a key is set, and then for the
   * prefixed sanitised query; a failed request gives the error text; it
   * raises exactly when the body's results cannot be read or one of them is
   * not a dict.
   */
  lemma SearchWebSpec(lib: Library, fmt: Formatting, apiKey: Option<string>, webQuery: string, response: Result<Json, string>, elapsed: real)
    ensures var run := SearchWebOutcome(lib, fmt, apiKey, webQuery, response, elapsed);
            && (apiKey.None? <==> run.request.None?)
            && (apiKey.None? ==> run.output == Success(TestSearchText))
            && (apiKey.Some? ==> run.request == Some(QueryPrefix + SanitizeAgentQuery(lib, webQuery)))
            && (apiKey.Some? && response.Failure? ==> run.output == Success(SearchErrorText))
            && (apiKey.Some? && response.Success? ==>
                  (run.output.Failure? <==>
                     || WebItems(response.value).Failure?
                     || exists k | 0 <= k < |WebItems(response.value).value| :: !WebItems(response.value).value[k].JObject?))
  {
    if apiKey.Some? && response.Success? && WebItems(response.value).Success? {
      ResultBlocksSpec(fmt, WebItems(response.value).value);
    }
  }

  /** `search_web` with its loop over the web results written out. */
  method SearchWeb(lib: Library, fmt: Formatting, apiKey: Option<string>, webQuery: string, response: Result<Json, string>, elapsed: real)
    returns (request: Option<string>, output: Result<string, string>)
    ensures ToolRun(request, output) == SearchWebOutcome(lib, fmt, apiKey, webQuery, response, elapsed)
  {
    if apiKey.None? {
      return None, Success(TestSearchText);
    }
    request := Some(QueryPrefix + SanitizeAgentQuery(lib, webQuery));
    if response.Failure? {
      return request, Success(SearchErrorText);
    }
    var items := WebItems(response.value);
    if items.Failure? {
      return request, Failure(items.error);
    }
    var blocks: seq<string> := [];
    var i := 0;
    while i < |items.value|
      invariant i <= |items.value|
      invariant ResultBlocks(fmt, items.value[..i]) == Success(blocks)
    {
      var item := items.value[i];
      assert items.value[..i + 1][..i] == items.value[..i];
      match ResultBlock(fmt, item) {
        case Failure(e) =>
          TryFlatMapStops(item => ResultBlock(fmt, item), items.value, i + 1);
          return request, Failure(e);
        case Success(b) =>
          blocks := blocks + b;
      }
      i := i + 1;
    }
    assert items.value[..|items.value|] == items.value;
    output := Success(SearchHeader(fmt, elapsed) + Join(blocks, ResultSeparator));
  }

  // ---------------------------------------------------------------------------
  // search_web_direct

  const TestTitle := "Test Result"
  const ErrorTitle := "Error"
  const PlaceholderUrl := "#"

  /** `{"title": t, "description": d, "url": "#"}` */
  function NoticeItem(title: string, description: string): Json {
    JObject([("title", JString(title)), ("description", JString(description)), ("url", JString(PlaceholderUrl))])
  }

  /** The dict for one web result, in a list for the fold; a non-dict web result raises AttributeError. */
  function DirectItem(item: Json, elapsed: real): (r: Result<seq<Json>, string>)
    ensures r.Failure? <==> !item.JObject?
    ensures r.Success? ==> |r.value| == 1
  {
    if !item.JObject? then Failure(NoAttribute(item, "get"))
    else
      Success([JObject([
        ("title", GetOr(item.fields, "title", JString("No title"))),
        ("description", GetOr(item.fields, "description", JString("No description available"))),
        ("url", GetOr(item.fields, "url", JString(PlaceholderUrl))),
        ("query_time", JFloat(elapsed))])])
  }

  function DirectItems(items: seq<Json>, elapsed: real): Result<seq<Json>, string> {
    TryFlatMap(item => DirectItem(item, elapsed), items)
  }

  /** What a direct search did: the query it sent, if any, and the list it returned or the exception it let out. */
  datatype DirectRun = DirectRun(request: Option<string>, output: Result<seq<Json>, string>)

  /**
   * `search_web_direct`: no key gives the one test item without a request;
   * otherwise one request for `web_query` as given, whose failure gives the
   * one error item and whose results are mapped one dict each.
   */
  function SearchWebDirectOutcome(apiKey: Option<string>, webQuery: string, response: Result<Json, string>,
                                  elapsed: real): DirectRun {
    if apiKey.None? then DirectRun(None, Success([NoticeItem(TestTitle, TestSearchText)]))
    else
      match response
      case Failure(_) => DirectRun(Some(webQuery), Success([NoticeItem(ErrorTitle, SearchErrorText)]))
      case Success(data) =>
        match WebItems(data)
        case Failure(e) => DirectRun(Some(webQuery), Failure(e))
        case Success(items) => DirectRun(Some(webQuery), DirectItems(items, elapsed))
  }

  /**
   * Mapping gives one dict per web result, in order, with title, description
   * and url taken from the result or defaulted, and the shared query time.
   */
  lemma DirectItemsSpec(items: seq<Json>, elapsed: real)
    ensures DirectItems(items, elapsed).Failure? <==> exists k | 0 <= k < |items| :: !items[k].JObject?
    ensures DirectItems(items, elapsed).Success? ==>
              (&& |DirectItems(items, elapsed).value| == |items|
               && forall k | 0 <= k < |items| ::
                    DirectItems(items, elapsed).value[k] == JObject([
                      ("title", GetOr(items[k].fields, "title", JString("No title"))),
                      ("description", GetOr(items[k].fields, "description", JString("No description available"))),
                      ("url", GetOr(items[k].fields, "url", JString(PlaceholderUrl))),
                      ("query_time", JFloat(elapsed))]))
  {
    TryFlatMapFailure(item => DirectItem(item, elapsed), items);
    if DirectItems(items, elapsed).Success? {
      TryFlatMapOnes(item => DirectItem(item, elapsed), items);
    }
  }

  /**
   * No key: exactly the test item with url `"#"` and no request. A failed
   * request: exactly the error item. Otherwise the request is the query as
   * given.
   */
  lemma SearchWebDirectSpec(apiKey: Option<string>, webQuery: string, response: Result<Json, string>, elapsed: real)
    ensures var run := SearchWebDirectOutcome(apiKey, webQuery, response, elapsed);
            && (apiKey.None? ==> run == DirectRun(None, Success([NoticeItem(TestTitle, TestSearchText)])))
            && (apiKey.Some? ==> run.request == Some(webQuery))
            && (apiKey.Some? && response.Failure? ==> run.output == Success([NoticeItem(ErrorTitle, SearchErrorText)]))
            && (apiKey.Some? && response.Success? && WebItems(response.value).Success? ==>
                  run.output == DirectItems(WebItems(response.value).value, elapsed))
  {
  }

  /** `search_web_direct` with its loop over the web results written out. */
  method SearchWebDirect(apiKey: Option<string>, webQuery: string, response: Result<Json, string>, elapsed: real)
    returns (request: Option<string>, output: Result<seq<Json>, string>)
    ensures DirectRun(request, output) == SearchWebDirectOutcome(apiKey, webQuery, response, elapsed)
  {
    if apiKey.None? {
      return None, Success([NoticeItem(TestTitle, TestSearchText)]);
    }
    request := Some(webQuery);
    if response.Failure? {
      return request, Success([NoticeItem(ErrorTitle, SearchErrorText)]);
    }
    var items := WebItems(response.value);
    if items.Failure? {
      return request, Failure(items.error);
    }
    var results: seq<Json> := [];
    var i := 0;
    while i < |items.value|
      invariant i <= |items.value|
      invariant DirectItems(items.value[..i], elapsed) == Success(results)
    {
      var item := items.value[i];
      assert items.value[..i + 1][..i] == items.value[..i];
      match DirectItem(item, elapsed) {
        case Failure(e) =>
          TryFlatMapStops(item => DirectItem(item, elapsed), items.value, i + 1);
          return request, Failure(e);
        case Success(d) =>
          results := results + d;
      }
      i := i + 1;
    }
    assert items.value[..|items.value|] == items.value;
    output := Success(results);
  }

  // ---------------------------------------------------------------------------
  // The reference split in main

  /** `str(ValueError)` from `a, b = s.split(sep, 1)` when `sep` is absent. */
  const UnpackErrorText := "not enough values to unpack (expected 2, got 1)"

  /** One reference line in `main`: as in `parse_response`, but a line missing a delimiter raises ValueError. */
  function StrictLineRef(line: string): Result<seq<RefDict>, string> {
    if Strip(line) == "" then Success([])
    else
      match SplitOnce(line, ". ")
      case None => Failure(UnpackErrorText)
      case Some((_, rest)) =>
        match SplitOnce(rest, " - ")
        case None => Failure(UnpackErrorText)
        case Some((name, url)) => Success([RefDict(name, url)])
  }

  /** The loop in `main` over `references.split('\n')`. */
  function StrictReferences(text: string): Result<seq<RefDict>, string> {
    TryFlatMap(StrictLineRef, SplitAll(text, "\n"))
  }

  /** A line raises exactly when `parse_response` would skip it without it being blank; otherwise both keep the same. */
  lemma StrictLineRefSpec(line: string)
    ensures StrictLineRef(line).Failure? <==> !IsBlank(line) && !HasReferenceShape(line)
    ensures StrictLineRef(line).Success? ==> StrictLineRef(line).value == LineRef(line)
  {
    LineRefKept(line);
    StripSpec(line);
  }

  /**
   * `main` raises ValueError exactly when some non-blank line lacks the
   * `n. title - url` shape; when it does not raise it builds the same list
   * as `parse_response`.
   */
  lemma {:induction false} StrictReferencesLines(lines: seq<string>)
    ensures TryFlatMap(StrictLineRef, lines).Failure? <==>
              exists k | 0 <= k < |lines| :: !IsBlank(lines[k]) && !HasReferenceShape(lines[k])
    ensures TryFlatMap(StrictLineRef, lines).Success? ==> TryFlatMap(StrictLineRef, lines).value == FlatMap(LineRef, lines)
  {
    TryFlatMapFailure(StrictLineRef, lines);
    forall k | 0 <= k < |lines| ensures StrictLineRef(lines[k]).Failure? <==> !IsBlank(lines[k]) && !HasReferenceShape(lines[k]) {
      StrictLineRefSpec(lines[k]);
    }
    if lines != [] && TryFlatMap(StrictLineRef, lines).Success? {
      var init := lines[..|lines| - 1];
      StrictReferencesLines(init);
      StrictLineRefSpec(lines[|lines| - 1]);
    }
  }

  /**
   * The section extraction and reference loop of `main`: an IndexError for
   * a missing tag, a ValueError for a malformed reference line.
   */
  function MainParseOutcome(response: string): Result<Parsed, string> {
    match Section(response, "verdict")
    case Failure(e) => Failure(e)
    case Success(verdict) =>
      match Section(response, "explanation")
      case Failure(e) => Failure(e)
      case Success(explanation) =>
        match Section(response, "context")
        case Failure(e) => Failure(e)
        case Success(context) =>
          match Section(response, "references")
          case Failure(e) => Failure(e)
          case Success(references) =>
            match StrictReferences(references)
            case Failure(e) => Failure(e)
            case Success(refs) => Success(Parsed(verdict, explanation, context, refs))
  }

  /** Whenever `main` gets through the parse, it has what `parse_response` returns for the same text. */
  lemma MainAgreesWithParse(response: string)
    ensures MainParseOutcome(response).Success? ==> Parse(response) == MainParseOutcome(response)
    ensures Parse(response).Failure? ==> MainParseOutcome(response) == Parse(response)
  {
    var refs := Section(response, "references");
    if refs.Success? {
      StrictReferencesLines(SplitAll(refs.value, "\n"));
    }
  }

  /** The reference loop of `main` written out: it stops at the first malformed line. */
  method SplitReferences(references: string) returns (r: Result<seq<RefDict>, string>)
    ensures r == StrictReferences(references)
  {
    var lines := SplitAll(references, "\n");
    var refList: seq<RefDict> := [];
    for i := 0 to |lines|
      invariant TryFlatMap(StrictLineRef, lines[..i]) == Success(refList)
    {
      assert lines[..i + 1][..i] == lines[..i];
      var line := lines[i];
      if Strip(line) != "" {
        var first := SplitOnce(line, ". ");
        if first.None? {
          TryFlatMapStops(StrictLineRef, lines, i + 1);
          return Failure(UnpackErrorText);
        }
        var second := SplitOnce(first.value.1, " - ");
        if second.None? {
          TryFlatMapStops(StrictLineRef, lines, i + 1);
          return Failure(UnpackErrorText);
        }
        assert StrictLineRef(line) == Success([RefDict(second.value.0, second.value.1)]);
        refList := refList + [RefDict(second.value.0, second.value.1)];
      } else {
        assert StrictLineRef(line) == Success([]);
        assert refList + [] == refList;
      }
    }
    assert lines[..|lines|] == lines;
    return Success(refList);
  }

  /** The parse in `main`: the four sections, then the reference loop. */
  method MainParse(response: string) returns (r: Result<Parsed, string>)
    ensures r == MainParseOutcome(response)
  {
    var verdict := Section(response, "verdict");
    if verdict.Failure? { return Failure(verdict.error); }
    var explanation := Section(response, "explanation");
    if explanation.Failure? { return Failure(explanation.error); }
    var context := Section(response, "context");
    if context.Failure? { return Failure(context.error); }
    var references := Section(response, "references");
    if references.Failure? { return Failure(references.error); }
    var refList := SplitReferences(references.value);
    if refList.Failure? { return Failure(refList.error); }
    return Success(Parsed(verdict.value, explanation.value, context.value, refList.value));
  }
}
