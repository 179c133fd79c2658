/**
 * The domain records of the fact checker: the six-valued verdict, a
 * reference, a search result and the analysis result with its
 * non-blank-explanation validator.
 */
module Domain {
  import opened Wrappers
  import opened Text
  import opened Json
  import opened Foreign

  /** The truthfulness verdict; each member's value is its own name. */
  datatype Verdict = True | MostlyTrue | PartiallyTrue | MostlyFalse | False | Unverifiable {
    function Value(): string {
      match this
      case True => "TRUE"
      case MostlyTrue => "MOSTLY_TRUE"
      case PartiallyTrue => "PARTIALLY_TRUE"
      case MostlyFalse => "MOSTLY_FALSE"
      case False => "FALSE"
      case Unverifiable => "UNVERIFIABLE"
    }
  }

  /** The members of `Verdict` in declaration order. */
  const AllVerdicts: seq<Verdict> := [True, MostlyTrue, PartiallyTrue, MostlyFalse, False, Unverifiable]

  /** The enum has exactly six members, with six distinct values. */
  lemma VerdictMembers()
    ensures |AllVerdicts| == 6
    ensures forall v: Verdict :: v in AllVerdicts
    ensures forall i, j | 0 <= i < j < |AllVerdicts| :: AllVerdicts[i].Value() != AllVerdicts[j].Value()
  {
    forall v: Verdict ensures v in AllVerdicts {
      match v
      case True => assert AllVerdicts[0] == v;
      case MostlyTrue => assert AllVerdicts[1] == v;
      case PartiallyTrue => assert AllVerdicts[2] == v;
      case MostlyFalse => assert AllVerdicts[3] == v;
      case False => assert AllVerdicts[4] == v;
      case Unverifiable => assert AllVerdicts[5] == v;
    }
  }

  /**
   * `Verdict(s)` when `s in {v.value for v in Verdict}`; None for any other
   * string.
   */
  function VerdictFromValue(s: string): (r: Option<Verdict>)
    ensures r.Some? ==> r.value.Value() == s
    ensures r.None? <==> forall v: Verdict :: v.Value() != s
  {
    if s == "TRUE" then Some(True)
    else if s == "MOSTLY_TRUE" then Some(MostlyTrue)
    else if s == "PARTIALLY_TRUE" then Some(PartiallyTrue)
    else if s == "MOSTLY_FALSE" then Some(MostlyFalse)
    else if s == "FALSE" then Some(False)
    else if s == "UNVERIFIABLE" then Some(Unverifiable)
    else None
  }

  /** Reading a verdict back from its value gives the same verdict. */
  lemma VerdictRoundTrip(v: Verdict)
    ensures VerdictFromValue(v.Value()) == Some(v)
  {
  }

  /** A cited source; `url` holds the validated, normalised HTTP(S) URL. */
  datatype Reference = Reference(title: string, url: string)

  /** `Reference(title=..., url=...)`: fails exactly when the URL does not validate. */
  function NewReference(lib: Library, title: string, url: string): (r: Option<Reference>)
    ensures r.Some? <==> lib.httpUrl(url).Some?
    ensures r.Some? ==> r.value.title == title && r.value.url == lib.httpUrl(url).value
  {
    match lib.httpUrl(url)
    case Some(u) => Some(Reference(title, u))
    case None => None
  }

  /** One web search hit. */
  datatype SearchResult = SearchResult(title: string, description: string, url: string, queryTime: real)

  /**
   * pydantic's lax coercion of a decoded value to a `float` field: numbers,
   * booleans and numeric strings convert; None, lists and dicts do not.
   */
  function LaxFloat(lib: Library, v: Json): Option<real> {
    match v
    case JInt(i) => Some(i as real)
    case JFloat(x) => Some(x)
    case JBool(b) => Some(if b then 1.0 else 0.0)
    case JString(s) => lib.parseFloat(s)
    case _ => None
  }

  /**
   * `SearchResult(title=..., description=..., url=..., query_time=...)` on
   * decoded values: the text fields must be strings, the URL must validate
   * and the time must coerce to a float.
   */
  function NewSearchResult(lib: Library, title: Json, url: Json,
                           description: Json := JString(""), queryTime: Json := JFloat(0.0)): (r: Option<SearchResult>)
    ensures r.Some? <==> title.JString? && description.JString? && url.JString? && lib.httpUrl(url.s).Some?
                         && (|| queryTime.JInt? || queryTime.JFloat? || queryTime.JBool?
                             || (queryTime.JString? && lib.parseFloat(queryTime.s).Some?))
    ensures r.Some? ==> r.value.title == title.s && r.value.description == description.s
                        && r.value.url == lib.httpUrl(url.s).value
    ensures r.Some? && queryTime.JInt? ==> r.value.queryTime == queryTime.i as real
    ensures r.Some? && queryTime.JFloat? ==> r.value.queryTime == queryTime.r
    ensures r.Some? && queryTime.JBool? ==> r.value.queryTime == if queryTime.b then 1.0 else 0.0
    ensures r.Some? && queryTime.JString? ==> Some(r.value.queryTime) == lib.parseFloat(queryTime.s)
  {
    if title.JString? && description.JString? && url.JString? && LaxFloat(lib, queryTime).Some? then
      match lib.httpUrl(url.s)
      case Some(u) => Some(SearchResult(title.s, description.s, u, LaxFloat(lib, queryTime).value))
      case None => None
    else None
  }

  /**
   * `SearchResult(**item)`: keyword construction from a stored dict. Title
   * and URL are required, description defaults to `""` and the time to 0.0;
   * other keys are ignored and a non-dict cannot be unpacked.
   */
  function SearchResultFromFields(lib: Library, item: Json): (r: Option<SearchResult>)
    ensures !item.JObject? ==> r.None?
    ensures item.JObject? && (Get(item.fields, "title").None? || Get(item.fields, "url").None?) ==> r.None?
    ensures r.Some? ==> Get(item.fields, "title") == Some(JString(r.value.title))
  {
    match item
    case JObject(fields) =>
      (match (Get(fields, "title"), Get(fields, "url"))
       case (Some(t), Some(u)) =>
         NewSearchResult(lib, t, u, GetOr(fields, "description", JString("")), GetOr(fields, "query_time", JFloat(0.0)))
       case _ => None)
    case _ => None
  }

  /** Keyword construction with title and URL only takes the declared defaults for description and time. */
  lemma SearchResultDefaults(lib: Library, title: string, url: string)
    requires lib.httpUrl(url).Some?
    ensures NewSearchResult(lib, JString(title), JString(url))
         == Some(SearchResult(title, "", lib.httpUrl(url).value, 0.0))
  {
  }

  /** A complete analysis. */
  datatype AnalysisResult = AnalysisResult(
    verdict: Verdict,
    explanation: string,
    context: Option<string>,
    references: seq<Reference>,
    searchTime: real,
    analysisTime: real)
  {
    /** The `explanation_not_empty` validator's guarantee. */
    predicate Valid() {
      !IsBlank(explanation)
    }
  }

  /** The text of the ValidationError construction raises. */
  const ValidationErrorText := "1 validation error for AnalysisResult"

  /**
   * `AnalysisResult(...)`: the validator refuses an empty or whitespace-only
   * explanation and `context` must be None or a string; on success every
   * field is stored unchanged.
   */
  function NewAnalysisResult(verdict: Verdict, explanation: string, context: Json := JNull,
                             references: seq<Reference> := [], searchTime: real := 0.0,
                             analysisTime: real := 0.0): (r: Result<AnalysisResult, string>)
    ensures r.Success? <==> !IsBlank(explanation) && (context.JNull? || context.JString?)
    ensures r.Success? ==> r.value.Valid()
    ensures r.Success? ==> r.value.verdict == verdict && r.value.explanation == explanation
                           && r.value.context == (if context.JString? then Some(context.s) else None)
                           && r.value.references == references
                           && r.value.searchTime == searchTime && r.value.analysisTime == analysisTime
  {
    if IsBlank(explanation) || !(context.JNull? || context.JString?) then Failure(ValidationErrorText)
    else Success(AnalysisResult(verdict, explanation, if context.JString? then Some(context.s) else None,
                                references, searchTime, analysisTime))
  }

  /** Construction with only verdict and explanation takes the declared defaults. */
  lemma AnalysisResultDefaults(verdict: Verdict, explanation: string)
    requires !IsBlank(explanation)
    ensures NewAnalysisResult(verdict, explanation)
         == Success(AnalysisResult(verdict, explanation, None, [], 0.0, 0.0))
  {
  }

  /** An UNVERIFIABLE result with a fixed, non-blank message and every other field at its default. */
  function Fallback(message: string): (r: AnalysisResult)
    requires message != [] && !IsSpace(message[0])
    ensures r.Valid() && r.verdict == Unverifiable && r.explanation == message
    ensures r.context == None && r.references == [] && r.searchTime == 0.0 && r.analysisTime == 0.0
  {
    AnalysisResult(Unverifiable, message, None, [], 0.0, 0.0)
  }
}
