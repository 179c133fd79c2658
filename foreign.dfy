/**
 * The libraries the core calls but does not own, as one record of functions:
 * the JSON decoder's `raw_decode` and `dumps`, `float(str)`, pydantic's
 * `HttpUrl` validation, `urlparse(...).scheme`, `bleach.clean` and the
 * Unicode part of the regex class `\w`. On top of `raw_decode` this module
 * builds `json.loads` as the standard library does it.
 */
module Foreign {
  import opened Wrappers
  import opened Text
  import opened Json

  datatype Library = Library(
    /** `JSONDecoder().raw_decode(s, idx)`: the value and the index just past it, or the error text. */
    rawDecode: (string, nat) -> Result<(Json, nat), string>,
    /** `json.dumps(v)` */
    dumps: Json -> string,
    /** `float(s)` for a `str`; None where it raises ValueError. */
    parseFloat: string -> Option<real>,
    /** pydantic `HttpUrl` validation: the normalised URL, or None where validation fails. */
    httpUrl: string -> Option<string>,
    /** `urlparse(s).scheme`; None where `urlparse` raises. */
    urlScheme: string -> Option<string>,
    /** `bleach.clean(s, tags, attributes, strip=True)` with the fixed allow-lists of `sanitize_html`. */
    clean: string -> string,
    /** `\w` for a non-ASCII character (Unicode letters, digits and connectors). */
    isUnicodeWord: char -> bool
  )

  /** The whitespace `json.loads` skips around a document: `[ \t\n\r]`. */
  predicate IsJsonSpace(c: char) {
    c == ' ' || c == '\t' || c == '\n' || c == '\r'
  }

  /** The index of the first non-JSON-whitespace character at or after `i`. */
  function SkipJsonSpace(s: string, i: nat): (j: nat)
    decreases |s| - i
    ensures i <= j
    ensures i <= |s| ==> j <= |s|
    ensures forall k | i <= k < j :: k < |s| && IsJsonSpace(s[k])
    ensures j < |s| ==> !IsJsonSpace(s[j])
  {
    if i < |s| && IsJsonSpace(s[i]) then SkipJsonSpace(s, i + 1) else i
  }

  /** `s.count('\n')` */
  function CountNewlines(s: string): nat {
    if s == [] then 0 else CountNewlines(s[..|s| - 1]) + (if s[|s| - 1] == '\n' then 1 else 0)
  }

  /** `s.rfind('\n')`, -1 when absent. */
  function LastNewline(s: string): (r: int)
    ensures -1 <= r < |s|
    ensures r >= 0 ==> s[r] == '\n'
    ensures forall k | r < k < |s| :: s[k] != '\n'
  {
    if s == [] then -1 else if s[|s| - 1] == '\n' then |s| - 1 else LastNewline(s[..|s| - 1])
  }

  /** `str(JSONDecodeError(msg, doc, pos))`: the message with line, column and character position. */
  function DecodeErrorText(msg: string, doc: string, pos: nat): string {
    var before := Take(doc, pos);
    var line := CountNewlines(before) + 1;
    var column := pos - LastNewline(before);
    msg + ": line " + IntToString(line) + " column " + IntToString(column) + " (char " + IntToString(pos) + ")"
  }

  /**
   * `json.loads(s)` for a `str`: a leading byte-order mark is refused, JSON
   * whitespace is skipped on both sides of the one value `raw_decode` reads,
   * and anything left over is "Extra data".
   */
  function Loads(lib: Library, s: string): (r: Result<Json, string>)
    ensures |s| > 0 && s[0] == '\U{feff}' ==> r.Failure?
    ensures r.Success? ==> exists i: nat, e: nat :: lib.rawDecode(s, i) == Success((r.value, e))
  {
    if |s| > 0 && s[0] == '\U{feff}' then
      Failure(DecodeErrorText("Unexpected UTF-8 BOM (decode using utf-8-sig)", s, 0))
    else
      var start := SkipJsonSpace(s, 0);
      match lib.rawDecode(s, start)
      case Failure(msg) => Failure(msg)
      case Success((v, end)) =>
        var stop := SkipJsonSpace(s, end);
        if stop != |s| then Failure(DecodeErrorText("Extra data", s, stop)) else Success(v)
  }

  /**
   * What `raw_decode` guarantees about a text that starts a decodable value:
   * it consumed at least one and at most all characters, decoding exactly the
   * consumed prefix gives the same value and stops at its end, and a text
   * starting with `{` decodes to an object.
   */
  predicate RawDecodeSpec(lib: Library, s: string) {
    match lib.rawDecode(s, 0)
    case Failure(_) => true
    case Success((v, n)) =>
      0 < n <= |s| && lib.rawDecode(s[..n], 0) == Success((v, n)) && (s[0] == '{' ==> v.JObject?)
  }

  /**
   * `json.loads` accepts exactly the span `raw_decode` consumed from a text
   * starting with `{`, and gives back the same object.
   */
  lemma LoadsConsumedSpan(lib: Library, s: string)
    requires RawDecodeSpec(lib, s)
    requires |s| > 0 && s[0] == '{'
    requires lib.rawDecode(s, 0).Success?
    ensures var n := lib.rawDecode(s, 0).value.1;
            Loads(lib, s[..n]) == Success(lib.rawDecode(s, 0).value.0)
    ensures lib.rawDecode(s, 0).value.0.JObject?
  {
    var n := lib.rawDecode(s, 0).value.1;
    var t := s[..n];
    assert t[0] == '{';
    assert SkipJsonSpace(t, 0) == 0;
    assert SkipJsonSpace(t, n) == n;
  }

  /**
   * `float(x)` for a decoded value: numbers and booleans convert, a string
   * goes through `float(str)`, anything else is a TypeError.
   */
  function PyFloat(lib: Library, v: Json): (r: Result<real, string>)
    ensures (v.JNull? || v.JArray? || v.JObject?) ==> r.Failure?
    ensures v.JFloat? ==> r == Success(v.r)
    ensures v.JInt? ==> r == Success(v.i as real)
  {
    match v
    case JBool(b) => Success(if b then 1.0 else 0.0)
    case JInt(i) => Success(i as real)
    case JFloat(x) => Success(x)
    case JString(s) =>
      (match lib.parseFloat(s)
       case Some(x) => Success(x)
       case None => Failure("could not convert string to float: '" + s + "'"))
    case _ => Failure("float() argument must be a string or a real number, not '" + TypeName(v) + "'")
  }
}
