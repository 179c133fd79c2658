/**
 * The legacy reconciler (`parse_llm_json` with its module-level
 * `_find_first_json` and `_normalize_input`). It is written out here in its
 * own loop structure and proved equal to the specification functions of the
 * current parser, so the two give the same result on every input.
 */
module LegacyParser {
  import opened Wrappers
  import opened Text
  import opened Json
  import opened Foreign
  import opened Domain
  import opened Folds
  import opened Reconciler

  /**
   * `_find_first_json`: the scan keeps the invariant that no earlier
   * position decodes, so the first hit is the leftmost one.
   */
  method FindFirstJson(lib: Library, text: string) returns (r: Option<string>)
    ensures r == FirstJson(lib, text)
  {
    var start := 0;
    while start < |text|
      invariant start <= |text|
      invariant FirstJsonFrom(lib, text, start) == FirstJson(lib, text)
    {
      if text[start] == '{' {
        match lib.rawDecode(text[start..], 0)
        case Success((_, idx)) =>
          return Some(Slice(text, start, start + idx));
        case Failure(_) =>
      }
      start := start + 1;
    }
    return None;
  }

  /** `_normalize_input(data)` with both reference loops inline. */
  method NormalizeInput(lib: Library, data: Json) returns (r: Result<Normalized, string>)
    ensures r == Normalize(lib, data)
  {
    if !data.JObject? {
      return Failure(NoAttribute(data, "get"));
    }
    var fields := data.fields;
    var rawExplanation := RawExplanation(fields);
    if !rawExplanation.JString? {
      return Failure(NoAttribute(rawExplanation, "strip"));
    }
    var refs: seq<RefFields> := [];
    var rawRefs := RawReferences(fields);
    if rawRefs.JString? {
      var lines := SplitLines(rawRefs.s);
      var i := 0;
      while i < |lines|
        invariant i <= |lines|
        invariant refs == StringReferences(lines[..i])
      {
        assert lines[..i + 1][..i] == lines[..i];
        refs := refs + LineRefs(lines[i]);
        i := i + 1;
      }
      assert lines[..|lines|] == lines;
    } else if rawRefs.JArray? {
      var items := rawRefs.items;
      var i := 0;
      while i < |items|
        invariant i <= |items|
        invariant ListReferences(items[..i]) == Success(refs)
      {
        assert items[..i + 1][..i] == items[..i];
        match ItemRefs(items[i])
        case Failure(e) =>
          TryFlatMapStops(ItemRefs, items, i + 1);
          return Failure(e);
        case Success(u) =>
          refs := refs + u;
        i := i + 1;
      }
      assert items[..|items|] == items;
    }
    var verdict := NormalizeVerdict(GetOr(fields, "verdict", JString("")));
    return Success(Normalized(verdict, Strip(rawExplanation.s), GetOr(fields, "context", JNull), refs,
                              Timing(lib, fields, "search_time"), Timing(lib, fields, "analysis_time")));
  }

  /** `parse_llm_json(response_text)`: the same steps, in the same order, as the current parser. */
  method ParseLlmJson(lib: Library, text: string) returns (r: Result<AnalysisResult, string>)
    ensures r == ParseOutcome(lib, text)
    ensures r.Success? ==> r.value.Valid()
  {
    var jsonStr := FindFirstJson(lib, text);
    if jsonStr.None? || jsonStr.value == "" {
      return Success(Fallback(NoJsonText));
    }
    var obj := DecodeWithRepair(lib, jsonStr.value);
    if obj.None? {
      return Success(Fallback(DecodeFailedText));
    }
    var normalized := NormalizeInput(lib, obj.value);
    if normalized.Failure? {
      return Failure(normalized.error);
    }
    var n := normalized.value;
    var refs: seq<Reference> := [];
    var i := 0;
    while i < |n.references|
      invariant i <= |n.references|
      invariant refs == BuildReferences(lib, n.references[..i])
    {
      assert n.references[..i + 1][..i] == n.references[..i];
      refs := refs + RefBuilt(lib, n.references[i]);
      i := i + 1;
    }
    assert n.references[..|n.references|] == n.references;
    var explanation := if n.explanation == "" then PlaceholderExplanation else n.explanation;
    var ar := NewAnalysisResult(ChooseVerdict(n.verdict), explanation, n.context, refs, n.searchTime, n.analysisTime);
    if ar.Failure? {
      return Success(Fallback(SchemaFailedText));
    }
    return ar;
  }
}
