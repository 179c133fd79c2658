/**
 * The LLM response reconciler (`LLMResponseParser`): find the first decodable
 * JSON object in free text, normalise its fields and build an
 * `AnalysisResult`, falling back to an UNVERIFIABLE result with a fixed
 * message whenever that fails.
 *
 * The specification functions are written as folds over the prefix of a
 * sequence so that each loop of the methods extends them by one element.
 */
module Reconciler {
  import opened Wrappers
  import opened Text
  import opened Json
  import opened Foreign
  import opened Domain
  import opened Folds

  // The fallback messages. The longer ones are written as two literals so
  // that the verifier sees their first character.
  const NoJsonText := "Could not parse model output " + "into structured JSON. Raw output preserved."
  const DecodeFailedText := "Failed to decode JSON " + "from model output."
  const SchemaFailedText := "Model output could not be validated " + "into the required schema."
  const UnexpectedErrorText := "Unexpected error " + "while parsing model output."
  const PlaceholderExplanation := "No explanation provided by model."

  // ---------------------------------------------------------------------------
  // Locating the JSON object

  /** Position `k` holds a `{` at which `raw_decode` reads a complete value. */
  predicate DecodesAt(lib: Library, text: string, k: nat) {
    k < |text| && text[k] == '{' && lib.rawDecode(text[k..], 0).Success?
  }

  /** The scan from `start` onward: the span read at the first decodable `{`. */
  function FirstJsonFrom(lib: Library, text: string, start: nat): Option<string>
    requires start <= |text|
    decreases |text| - start
  {
    if start == |text| then None
    else if DecodesAt(lib, text, start) then
      Some(Slice(text, start, start + lib.rawDecode(text[start..], 0).value.1))
    else FirstJsonFrom(lib, text, start + 1)
  }

  /** `_find_first_json(text)` */
  function FirstJson(lib: Library, text: string): Option<string> {
    FirstJsonFrom(lib, text, 0)
  }

  lemma {:induction false} FirstJsonFromSpec(lib: Library, text: string, start: nat)
    requires start <= |text|
    decreases |text| - start
    ensures FirstJsonFrom(lib, text, start).None? <==> forall k | start <= k :: !DecodesAt(lib, text, k)
    ensures FirstJsonFrom(lib, text, start).Some? ==>
              exists k | start <= k :: DecodesAt(lib, text, k)
                && (forall j | start <= j < k :: !DecodesAt(lib, text, j))
                && FirstJsonFrom(lib, text, start).value
                   == Slice(text, k, k + lib.rawDecode(text[k..], 0).value.1)
  {
    if start < |text| && !DecodesAt(lib, text, start) {
      FirstJsonFromSpec(lib, text, start + 1);
    }
  }

  /**
   * The scan returns the span `raw_decode` read at the LEFTMOST `{` where a
   * value decodes, skipping earlier undecodable ones, and None exactly when no
   * `{` decodes.
   */
  lemma FirstJsonSpec(lib: Library, text: string)
    ensures FirstJson(lib, text).None? <==> forall k :: !DecodesAt(lib, text, k)
    ensures FirstJson(lib, text).Some? ==>
              exists k: nat :: DecodesAt(lib, text, k)
                && (forall j | 0 <= j < k :: !DecodesAt(lib, text, j))
                && FirstJson(lib, text).value == Slice(text, k, k + lib.rawDecode(text[k..], 0).value.1)
  {
    FirstJsonFromSpec(lib, text, 0);
  }

  /** A text with no `{` has no JSON object. */
  lemma FirstJsonNoBrace(lib: Library, text: string)
    requires forall k | 0 <= k < |text| :: text[k] != '{'
    ensures FirstJson(lib, text) == None
  {
    FirstJsonSpec(lib, text);
  }

  /** `_find_first_json`: the `for start in range(len(text))` scan with early return. */
  method FindFirstJson(lib: Library, text: string) returns (r: Option<string>)
    ensures r == FirstJson(lib, text)
  {
    for start := 0 to |text|
      invariant FirstJsonFrom(lib, text, start) == FirstJson(lib, text)
    {
      if text[start] != '{' {
        continue;
      }
      match lib.rawDecode(text[start..], 0)
      case Success((_, idx)) =>
        return Some(Slice(text, start, start + idx));
      case Failure(_) =>
    }
    return None;
  }

  // ---------------------------------------------------------------------------
  // Normalisation

  /** `v_map.get(v, v)` with the map of the source. */
  function AliasMap(v: string): string {
    if v == "MOSTLY TRUE" then "MOSTLY_TRUE"
    else if v == "PARTIALLY TRUE" then "PARTIALLY_TRUE"
    else if v == "MOSTLY FALSE" then "MOSTLY_FALSE"
    else if v == "UNVERIFIABLE" then "UNVERIFIABLE"
    else v
  }

  /** A string verdict is stripped, upper-cased, spaces turned into `_`, then aliased; any other value leaves no verdict. */
  function NormalizeVerdict(raw: Json): Option<string> {
    match raw
    case JString(s) => Some(AliasMap(ReplaceChar(ToUpper(Strip(s)), ' ', '_')))
    case _ => None
  }

  /**
   * The alias map can only map identically on what reaches it: every key
   * that would change its argument contains a space, and the spaces were
   * already replaced.
   */
  lemma AliasMapIdentity(raw: Json)
    ensures raw.JString? ==> NormalizeVerdict(raw) == Some(ReplaceChar(ToUpper(Strip(raw.s)), ' ', '_'))
    ensures !raw.JString? ==> NormalizeVerdict(raw) == None
  {
    if raw.JString? {
      var v := ReplaceChar(ToUpper(Strip(raw.s)), ' ', '_');
      ReplaceCharRemoves(ToUpper(Strip(raw.s)), ' ', '_');
      AliasMapWithoutSpace(v);
    }
  }

  /** Each key the alias map changes contains a space. */
  lemma AliasMapWithoutSpace(v: string)
    requires forall k | 0 <= k < |v| :: v[k] != ' '
    ensures AliasMap(v) == v
  {
    assert |v| <= 6 || v[6] != ' ';
    assert |v| <= 9 || v[9] != ' ';
    assert "MOSTLY TRUE"[6] == ' ' && "MOSTLY FALSE"[6] == ' ' && "PARTIALLY TRUE"[9] == ' ';
  }

  /** A reference as `_normalize_input` leaves it: `{"title": ..., "url": ...}`. */
  datatype RefFields = RefFields(title: string, url: string)

  /**
   * One non-blank, stripped line of a string `references`: split on the first
   * `" - "` when present, else on the first `" | "`, else the whole line is the
   * title; both parts stripped.
   */
  function ParseRefLine(line: string): RefFields {
    match SplitOnce(line, " - ")
    case Some((title, url)) => RefFields(Strip(title), Strip(url))
    case None =>
      match SplitOnce(line, " | ")
      case Some((title, url)) => RefFields(Strip(title), Strip(url))
      case None => RefFields(Strip(line), Strip(""))
  }

  /** `" - "` wins over `" | "` wherever the latter occurs: a title without `-` is cut at the dash separator. */
  lemma RefLineDash(title: string, url: string)
    requires forall k | 0 <= k < |title| :: title[k] != '-'
    ensures ParseRefLine(title + " - " + url) == RefFields(Strip(title), Strip(url))
  {
    var line := title + " - " + url;
    forall j | 0 <= j < |title| ensures !OccursAt(line, " - ", j) {
      assert line[j + 1] != '-' by {
        if j + 1 < |title| { assert line[j + 1] == title[j + 1]; } else { assert line[j + 1] == ' '; }
      }
      if j + 3 <= |line| { assert line[j..j + 3][1] == line[j + 1]; }
    }
    SplitOnceSpec(line, " - ", title, url);
  }

  /** With no dash separator anywhere, a line is cut at its first `" | "`. */
  lemma RefLinePipe(title: string, url: string)
    requires !Contains(title + " | " + url, " - ")
    requires forall k | 0 <= k < |title| :: title[k] != '|'
    ensures ParseRefLine(title + " | " + url) == RefFields(Strip(title), Strip(url))
  {
    var line := title + " | " + url;
    ContainsIff(line, " - ");
    SplitOnceNone(line, " - ");
    forall j | 0 <= j < |title| ensures !OccursAt(line, " | ", j) {
      assert line[j + 1] != '|' by {
        if j + 1 < |title| { assert line[j + 1] == title[j + 1]; } else { assert line[j + 1] == ' '; }
      }
      if j + 3 <= |line| { assert line[j..j + 3][1] == line[j + 1]; }
    }
    SplitOnceSpec(line, " | ", title, url);
  }

  /** With neither separator, the whole line is the title and the URL is empty. */
  lemma RefLineWhole(line: string)
    requires !Contains(line, " - ") && !Contains(line, " | ")
    ensures ParseRefLine(line) == RefFields(Strip(line), "")
  {
    ContainsIff(line, " - ");
    ContainsIff(line, " | ");
    SplitOnceNone(line, " - ");
    SplitOnceNone(line, " | ");
    assert Strip("") == "";
  }

  /** What one line of a string `references` contributes: nothing when blank, else its parsed reference. */
  function LineRefs(line: string): seq<RefFields> {
    var stripped := Strip(line);
    if stripped == "" then [] else [ParseRefLine(stripped)]
  }

  /** The references of a newline-separated string: blank lines skipped, the rest parsed in order. */
  function StringReferences(lines: seq<string>): seq<RefFields> {
    FlatMap(LineRefs, lines)
  }

  /** String references are built line by line: the lines of `a + b` give the references of `a`, then of `b`. */
  lemma StringReferencesConcat(a: seq<string>, b: seq<string>)
    ensures StringReferences(a + b) == StringReferences(a) + StringReferences(b)
  {
    FlatMapConcat(LineRefs, a, b);
  }

  /** A blank line gives no reference; any other line gives exactly the reference of its stripped text. */
  lemma StringReferencesLine(line: string)
    ensures IsBlank(line) ==> StringReferences([line]) == []
    ensures !IsBlank(line) ==> StringReferences([line]) == [ParseRefLine(Strip(line))]
  {
    FlatMapSingle(LineRefs, line);
    StripSpec(line);
  }

  /** `item.get("title") or item.get("source") or item.get("name") or ""` */
  function RefTitle(fields: seq<(string, Json)>): Json {
    Or(Or(Or(GetOr(fields, "title", JNull), GetOr(fields, "source", JNull)), GetOr(fields, "name", JNull)), JString(""))
  }

  /** `item.get("url") or item.get("link") or ""` */
  function RefUrl(fields: seq<(string, Json)>): Json {
    Or(Or(GetOr(fields, "url", JNull), GetOr(fields, "link", JNull)), JString(""))
  }

  /** The title alias chain prefers `title`, then `source`, then `name`, and falls back to `""`; the URL prefers `url`, then `link`. */
  lemma RefTitleAliases(fields: seq<(string, Json)>)
    ensures var t, s, n := GetOr(fields, "title", JNull), GetOr(fields, "source", JNull), GetOr(fields, "name", JNull);
            RefTitle(fields) == (if Truthy(t) then t else if Truthy(s) then s else if Truthy(n) then n else JString(""))
    ensures var u, l := GetOr(fields, "url", JNull), GetOr(fields, "link", JNull);
            RefUrl(fields) == (if Truthy(u) then u else if Truthy(l) then l else JString(""))
  {
  }

  /** A dict item whose title or URL is a truthy non-string: `.strip()` raises on it. */
  predicate BadListItem(item: Json) {
    item.JObject? && (!RefTitle(item.fields).JString? || !RefUrl(item.fields).JString?)
  }

  /**
   * What one item of a list `references` contributes: nothing for a non-dict;
   * for a dict, its aliased title and URL stripped, or the AttributeError of
   * `.strip()` on a non-string (the title is stripped first).
   */
  function ItemRefs(item: Json): Result<seq<RefFields>, string> {
    if !item.JObject? then Success([])
    else
      var title, url := RefTitle(item.fields), RefUrl(item.fields);
      if !title.JString? then Failure(NoAttribute(title, "strip"))
      else if !url.JString? then Failure(NoAttribute(url, "strip"))
      else Success([RefFields(Strip(title.s), Strip(url.s))])
  }

  /** The references of a list: each item in order, stopping at the first that raises. */
  function ListReferences(items: seq<Json>): Result<seq<RefFields>, string> {
    TryFlatMap(ItemRefs, items)
  }

  /** A list of references raises exactly when some dict item has a non-string title or URL. */
  lemma ListReferencesRaises(items: seq<Json>)
    ensures ListReferences(items).Failure? <==> exists k | 0 <= k < |items| :: BadListItem(items[k])
  {
    TryFlatMapFailure(ItemRefs, items);
    assert forall k | 0 <= k < |items| :: ItemRefs(items[k]).Failure? <==> BadListItem(items[k]);
  }

  /** The list of references of `a + b` is that of `a` followed by that of `b`: input order is kept. */
  lemma ListReferencesConcat(a: seq<Json>, b: seq<Json>)
    requires ListReferences(a).Success? && ListReferences(b).Success?
    ensures ListReferences(a + b) == Success(ListReferences(a).value + ListReferences(b).value)
  {
    TryFlatMapConcat(ItemRefs, a, b);
  }

  /** A non-dict item is skipped; a dict item gives one reference. */
  lemma ListReferencesItem(item: Json)
    ensures !item.JObject? ==> ListReferences([item]) == Success([])
    ensures item.JObject? && !BadListItem(item) ==>
              ListReferences([item]) == Success([RefFields(Strip(RefTitle(item.fields).s), Strip(RefUrl(item.fields).s))])
  {
    TryFlatMapSingle(ItemRefs, item);
    if ItemRefs(item).Success? {
      var u := ItemRefs(item).value;
      assert [] + u == u;
    }
  }

  /** `raw_refs = data.get("references", []) or []`, dispatched on its type. */
  function References(raw: Json): Result<seq<RefFields>, string> {
    match raw
    case JString(s) => Success(StringReferences(SplitLines(s)))
    case JArray(items) => ListReferences(items)
    case _ => Success([])
  }

  /** `float(data.get(key, 0.0) or 0.0)`, with 0.0 where that raises TypeError or ValueError. */
  function Timing(lib: Library, fields: seq<(string, Json)>, key: string): real {
    match PyFloat(lib, Or(GetOr(fields, key, JFloat(0.0)), JFloat(0.0)))
    case Success(x) => x
    case Failure(_) => 0.0
  }

  /** A missing or falsy timing, or one `float` refuses, is 0.0; otherwise it is the converted value. */
  lemma TimingSpec(lib: Library, fields: seq<(string, Json)>, key: string)
    ensures !Truthy(GetOr(fields, key, JFloat(0.0))) ==> Timing(lib, fields, key) == 0.0
    ensures PyFloat(lib, GetOr(fields, key, JFloat(0.0))).Failure? ==> Timing(lib, fields, key) == 0.0
    ensures Truthy(GetOr(fields, key, JFloat(0.0))) && PyFloat(lib, GetOr(fields, key, JFloat(0.0))).Success? ==>
              Timing(lib, fields, key) == PyFloat(lib, GetOr(fields, key, JFloat(0.0))).value
  {
  }

  /** The dict `_normalize_input` returns. */
  datatype Normalized = Normalized(
    verdict: Option<string>,
    explanation: string,
    context: Json,
    references: seq<RefFields>,
    searchTime: real,
    analysisTime: real)

  /** `data.get("explanation", "")` */
  function RawExplanation(fields: seq<(string, Json)>): Json {
    GetOr(fields, "explanation", JString(""))
  }

  /** `data.get("references", []) or []` */
  function RawReferences(fields: seq<(string, Json)>): Json {
    Or(GetOr(fields, "references", JArray([])), JArray([]))
  }

  /**
   * `_normalize_input(data)`: AttributeError when `data` is not a dict, the
   * explanation is not a string, or a listed reference has a non-string title
   * or URL; otherwise the normalised fields.
   */
  function Normalize(lib: Library, data: Json): Result<Normalized, string> {
    match data
    case JObject(fields) =>
      var explanation := RawExplanation(fields);
      if !explanation.JString? then Failure(NoAttribute(explanation, "strip"))
      else
        (match References(RawReferences(fields))
         case Failure(e) => Failure(e)
         case Success(refs) =>
           Success(Normalized(NormalizeVerdict(GetOr(fields, "verdict", JString(""))), Strip(explanation.s),
                              GetOr(fields, "context", JNull), refs,
                              Timing(lib, fields, "search_time"), Timing(lib, fields, "analysis_time"))))
    case _ => Failure(NoAttribute(data, "get"))
  }

  /** When normalisation raises, stated on the decoded value itself. */
  lemma NormalizeRaises(lib: Library, data: Json)
    ensures Normalize(lib, data).Failure? <==>
              !data.JObject? || !RawExplanation(data.fields).JString?
              || (RawReferences(data.fields).JArray?
                  && exists k | 0 <= k < |RawReferences(data.fields).items| :: BadListItem(RawReferences(data.fields).items[k]))
  {
    if data.JObject? && RawReferences(data.fields).JArray? {
      ListReferencesRaises(RawReferences(data.fields).items);
    }
  }

  /** The `for line in raw_refs.splitlines()` loop. */
  method StringReferenceList(lines: seq<string>) returns (refs: seq<RefFields>)
    ensures refs == StringReferences(lines)
  {
    refs := [];
    for i := 0 to |lines|
      invariant refs == StringReferences(lines[..i])
    {
      assert lines[..i + 1][..i] == lines[..i];
      var line := Strip(lines[i]);
      if line == "" {
        continue;
      }
      refs := refs + [ParseRefLine(line)];
    }
    assert lines[..|lines|] == lines;
  }

  /** The `for item in raw_refs` loop; an AttributeError ends it. */
  method ListReferenceList(items: seq<Json>) returns (r: Result<seq<RefFields>, string>)
    ensures r == ListReferences(items)
  {
    var refs: seq<RefFields> := [];
    for i := 0 to |items|
      invariant ListReferences(items[..i]) == Success(refs)
    {
      assert items[..i + 1][..i] == items[..i];
      var item := items[i];
      if !item.JObject? {
        assert refs + [] == refs;
        continue;
      }
      var title := RefTitle(item.fields);
      var url := RefUrl(item.fields);
      if !title.JString? || !url.JString? {
        TryFlatMapStops(ItemRefs, items, i + 1);
        return if !title.JString? then Failure(NoAttribute(title, "strip")) else Failure(NoAttribute(url, "strip"));
      }
      refs := refs + [RefFields(Strip(title.s), Strip(url.s))];
    }
    assert items[..|items|] == items;
    return Success(refs);
  }

  /** `_normalize_input`: fills the normalised fields, the references by the loops above. */
  method NormalizeInput(lib: Library, data: Json) returns (r: Result<Normalized, string>)
    ensures r == Normalize(lib, data)
  {
    if !data.JObject? {
      return Failure(NoAttribute(data, "get"));
    }
    var fields := data.fields;
    var verdict := NormalizeVerdict(GetOr(fields, "verdict", JString("")));
    var rawExplanation := RawExplanation(fields);
    if !rawExplanation.JString? {
      return Failure(NoAttribute(rawExplanation, "strip"));
    }
    var explanation := Strip(rawExplanation.s);
    var context := GetOr(fields, "context", JNull);
    var refs: seq<RefFields> := [];
    var rawRefs := RawReferences(fields);
    if rawRefs.JString? {
      refs := StringReferenceList(SplitLines(rawRefs.s));
    } else if rawRefs.JArray? {
      var listed := ListReferenceList(rawRefs.items);
      if listed.Failure? {
        return Failure(listed.error);
      }
      refs := listed.value;
    }
    var searchTime := Timing(lib, fields, "search_time");
    var analysisTime := Timing(lib, fields, "analysis_time");
    return Success(Normalized(verdict, explanation, context, refs, searchTime, analysisTime));
  }

  // ---------------------------------------------------------------------------
  // Building the result

  /** What one normalised reference contributes: the validated reference, or nothing when construction fails. */
  function RefBuilt(lib: Library, r: RefFields): seq<Reference> {
    match NewReference(lib, r.title, r.url)
    case Some(x) => [x]
    case None => []
  }

  /** `Reference(title=..., url=...)` for each normalised reference, dropping the ones that fail. */
  function BuildReferences(lib: Library, refs: seq<RefFields>): seq<Reference> {
    FlatMap(r => RefBuilt(lib, r), refs)
  }

  /** Building is done reference by reference: a bad one is dropped alone and the survivors keep their order. */
  lemma BuildReferencesConcat(lib: Library, a: seq<RefFields>, b: seq<RefFields>)
    ensures BuildReferences(lib, a + b) == BuildReferences(lib, a) + BuildReferences(lib, b)
  {
    FlatMapConcat(r => RefBuilt(lib, r), a, b);
  }

  /** One reference survives exactly when its URL validates, keeping its title. */
  lemma BuildReferencesSingle(lib: Library, r: RefFields)
    ensures BuildReferences(lib, [r])
         == if lib.httpUrl(r.url).Some? then [Reference(r.title, lib.httpUrl(r.url).value)] else []
  {
    FlatMapSingle(r => RefBuilt(lib, r), r);
  }

  /** The loop at the end of `parse` that builds the references defensively. */
  method BuildReferenceList(lib: Library, refs: seq<RefFields>) returns (built: seq<Reference>)
    ensures built == BuildReferences(lib, refs)
  {
    built := [];
    for i := 0 to |refs|
      invariant built == BuildReferences(lib, refs[..i])
    {
      assert refs[..i + 1][..i] == refs[..i];
      match NewReference(lib, refs[i].title, refs[i].url)
      case Some(x) => built := built + [x];
      case None =>
    }
    assert refs[..|refs|] == refs;
  }

  /** `Verdict(v) if v in {v.value for v in Verdict} else Verdict.UNVERIFIABLE` */
  function ChooseVerdict(v: Option<string>): (r: Verdict)
    ensures v.Some? && VerdictFromValue(v.value).Some? ==> r.Value() == v.value
    ensures (v.None? || VerdictFromValue(v.value).None?) ==> r == Unverifiable
  {
    match v
    case Some(s) => VerdictFromValue(s).GetOr(Unverifiable)
    case None => Unverifiable
  }

  /**
   * The steps of `parse` after normalisation: the placeholder for an empty
   * explanation, the verdict choice, the references built, then the
   * `AnalysisResult` construction, whose ValidationError gives the schema
   * fallback.
   */
  function FromNormalized(lib: Library, n: Normalized): (r: AnalysisResult)
    ensures r.Valid()
  {
    var explanation := if n.explanation == "" then PlaceholderExplanation else n.explanation;
    match NewAnalysisResult(ChooseVerdict(n.verdict), explanation, n.context,
                            BuildReferences(lib, n.references), n.searchTime, n.analysisTime)
    case Success(ar) => ar
    case Failure(_) => Fallback(SchemaFailedText)
  }

  /**
   * `json.loads(json_str)`, and on a JSONDecodeError a second `json.loads`
   * after replacing `'` by `"`; None when that fails too.
   */
  function DecodeWithRepair(lib: Library, jsonStr: string): Option<Json> {
    match Loads(lib, jsonStr)
    case Success(v) => Some(v)
    case Failure(_) =>
      match Loads(lib, ReplaceChar(jsonStr, '\'', '"'))
      case Success(v) => Some(v)
      case Failure(_) => None
  }

  /**
   * `LLMResponseParser().parse(text)`: Success holds the returned result,
   * Failure the AttributeError that escapes from `_normalize_input`.
   */
  function ParseOutcome(lib: Library, text: string): (r: Result<AnalysisResult, string>)
    ensures r.Success? ==> r.value.Valid()
  {
    match FirstJson(lib, text)
    case None => Success(Fallback(NoJsonText))
    case Some(jsonStr) =>
      if jsonStr == "" then Success(Fallback(NoJsonText))
      else
        match DecodeWithRepair(lib, jsonStr)
        case None => Success(Fallback(DecodeFailedText))
        case Some(obj) =>
          match Normalize(lib, obj)
          case Failure(e) => Failure(e)
          case Success(n) => Success(FromNormalized(lib, n))
  }

  /** `LLMResponseParser.parse`, with the scan, normalisation and reference loops as methods. */
  method Parse(lib: Library, text: string) returns (r: Result<AnalysisResult, string>)
    ensures r == ParseOutcome(lib, text)
  {
    var jsonStr := FindFirstJson(lib, text);
    if jsonStr.None? || jsonStr.value == "" {
      return Success(Fallback(NoJsonText));
    }
    var obj := DecodeWithRepair(lib, jsonStr.value);
    if obj.None? {
      return Success(Fallback(DecodeFailedText));
    }
    var normalized := NormalizeInput(lib, obj.value);
    if normalized.Failure? {
      return Failure(normalized.error);
    }
    var n := normalized.value;
    var explanation := if n.explanation == "" then PlaceholderExplanation else n.explanation;
    var refs := BuildReferenceList(lib, n.references);
    var verdict := ChooseVerdict(n.verdict);
    var ar := NewAnalysisResult(verdict, explanation, n.context, refs, n.searchTime, n.analysisTime);
    if ar.Failure? {
      return Success(Fallback(SchemaFailedText));
    }
    return ar;
  }

  /** `parse_llm_json(text)`, the module-level wrapper around a fresh parser. */
  method ParseLlmJson(lib: Library, text: string) returns (r: Result<AnalysisResult, string>)
    ensures r == ParseOutcome(lib, text)
  {
    r := Parse(lib, text);
  }

  // ---------------------------------------------------------------------------
  // Properties of the whole parse

  /**
   * Under the decoder's guarantee, the span the scan returns is non-empty and
   * `json.loads` accepts it as an object on the first try: the single-quote
   * repair and the "Failed to decode JSON" fallback are unreachable.
   */
  lemma RepairBranchDead(lib: Library, text: string)
    requires forall k | 0 <= k < |text| :: RawDecodeSpec(lib, text[k..])
    ensures FirstJson(lib, text).Some? ==>
              var s := FirstJson(lib, text).value;
              s != "" && Loads(lib, s).Success? && Loads(lib, s).value.JObject?
              && DecodeWithRepair(lib, s) == Some(Loads(lib, s).value)
  {
    if FirstJson(lib, text).Some? {
      var s := FirstJson(lib, text).value;
      assert s != "" && Loads(lib, s).Success? && Loads(lib, s).value.JObject? by {
        FirstJsonSpec(lib, text);
        var k: nat :| DecodesAt(lib, text, k)
          && (forall j | 0 <= j < k :: !DecodesAt(lib, text, j))
          && s == Slice(text, k, k + lib.rawDecode(text[k..], 0).value.1);
        SpanDecodes(lib, text, k);
      }
    }
  }

  /** The span `raw_decode` read at a decodable `{` is not empty and `json.loads` accepts it as an object. */
  lemma SpanDecodes(lib: Library, text: string, k: nat)
    requires DecodesAt(lib, text, k) && RawDecodeSpec(lib, text[k..])
    ensures var s := Slice(text, k, k + lib.rawDecode(text[k..], 0).value.1);
            s != "" && Loads(lib, s).Success? && Loads(lib, s).value.JObject?
  {
    var t := text[k..];
    var n := lib.rawDecode(t, 0).value.1;
    assert Slice(text, k, k + n) == t[..n];
    LoadsConsumedSpan(lib, t);
  }

  /** The parse never yields "Failed to decode JSON" by way of the repair: its outcome is the normalised object's. */
  lemma ParseWithoutRepair(lib: Library, text: string)
    requires forall k | 0 <= k < |text| :: RawDecodeSpec(lib, text[k..])
    requires FirstJson(lib, text).Some?
    ensures Loads(lib, FirstJson(lib, text).value).Success?
    ensures var obj := Loads(lib, FirstJson(lib, text).value).value;
            ParseOutcome(lib, text)
            == match Normalize(lib, obj) case Failure(e) => Failure(e) case Success(n) => Success(FromNormalized(lib, n))
  {
    RepairBranchDead(lib, text);
  }

  /** Text with no decodable `{` gives the "could not parse" fallback. */
  lemma ParseNoJson(lib: Library, text: string)
    requires forall k :: !DecodesAt(lib, text, k)
    ensures ParseOutcome(lib, text) == Success(Fallback(NoJsonText))
  {
    FirstJsonSpec(lib, text);
  }

  /**
   * The parse raises only from normalisation: the object has a non-string
   * explanation, or a listed reference has a non-string title or URL.
   */
  lemma ParseRaises(lib: Library, text: string)
    requires forall k | 0 <= k < |text| :: RawDecodeSpec(lib, text[k..])
    ensures ParseOutcome(lib, text).Failure? <==>
              FirstJson(lib, text).Some? && Loads(lib, FirstJson(lib, text).value).Success? &&
              var data := Loads(lib, FirstJson(lib, text).value).value;
              data.JObject? &&
              (!RawExplanation(data.fields).JString?
               || (RawReferences(data.fields).JArray?
                   && exists k | 0 <= k < |RawReferences(data.fields).items| :: BadListItem(RawReferences(data.fields).items[k])))
  {
    RepairBranchDead(lib, text);
    if FirstJson(lib, text).Some? {
      NormalizeRaises(lib, Loads(lib, FirstJson(lib, text).value).value);
    }
  }

  /** The normalised explanation is the stripped one: empty exactly when the raw explanation is blank. */
  lemma NormalizedExplanation(lib: Library, data: Json)
    requires Normalize(lib, data).Success?
    ensures data.JObject? && RawExplanation(data.fields).JString?
    ensures Normalize(lib, data).value.explanation == Strip(RawExplanation(data.fields).s)
    ensures Normalize(lib, data).value.explanation == "" <==> IsBlank(RawExplanation(data.fields).s)
    ensures Normalize(lib, data).value.explanation == "" || !IsBlank(Normalize(lib, data).value.explanation)
  {
    var raw := RawExplanation(data.fields).s;
    StripSpec(raw);
    if Strip(raw) != "" {
      StrippedNotBlank(raw);
    }
  }

  /**
   * After normalisation: an explanation that strips to nothing is replaced by
   * the placeholder; the verdict is the normalised one when it is an enum
   * value and UNVERIFIABLE otherwise; a context that is neither None nor a
   * string gives the schema fallback.
   */
  lemma FromNormalizedSpec(lib: Library, n: Normalized)
    requires n.explanation == "" || !IsBlank(n.explanation)
    ensures !(n.context.JNull? || n.context.JString?) ==> FromNormalized(lib, n) == Fallback(SchemaFailedText)
    ensures (n.context.JNull? || n.context.JString?) ==>
              var r := FromNormalized(lib, n);
              && r.explanation == (if n.explanation == "" then PlaceholderExplanation else n.explanation)
              && r.verdict == ChooseVerdict(n.verdict)
              && r.context == (if n.context.JString? then Some(n.context.s) else None)
              && r.references == BuildReferences(lib, n.references)
              && r.searchTime == n.searchTime && r.analysisTime == n.analysisTime
  {
    assert !IsBlank(PlaceholderExplanation) by {
      assert !IsSpace(PlaceholderExplanation[0]);
    }
  }

  /**
   * On the full parse, a decoded object whose explanation is blank and whose
   * context is None or a string gets the placeholder explanation; a
   * non-blank one is kept, stripped.
   */
  lemma ParseExplanation(lib: Library, text: string)
    requires forall k | 0 <= k < |text| :: RawDecodeSpec(lib, text[k..])
    requires FirstJson(lib, text).Some? && Loads(lib, FirstJson(lib, text).value).Success?
    requires var data := Loads(lib, FirstJson(lib, text).value).value;
             data.JObject? && RawExplanation(data.fields).JString?
             && (GetOr(data.fields, "context", JNull).JNull? || GetOr(data.fields, "context", JNull).JString?)
    requires ParseOutcome(lib, text).Success?
    ensures var raw := RawExplanation(Loads(lib, FirstJson(lib, text).value).value.fields).s;
            ParseOutcome(lib, text).value.explanation
            == if IsBlank(raw) then PlaceholderExplanation else Strip(raw)
  {
    RepairBranchDead(lib, text);
    var data := Loads(lib, FirstJson(lib, text).value).value;
    assert Normalize(lib, data).Success?;
    NormalizedExplanation(lib, data);
    FromNormalizedSpec(lib, Normalize(lib, data).value);
  }
}
