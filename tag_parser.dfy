/**
 * The legacy tag-based response parser (`parse_response`): four sections cut
 * out of `<tag>...</tag>` markers with `str.split`, and reference lines of the
 * form `n. title - url`.
 */
module TagParser {
  import opened Wrappers
  import opened Text
  import opened Folds

  /** `str(IndexError)` raised by `split(...)[1]` when the opening tag is absent. */
  const IndexErrorText := "list index out of range"

  function OpenTag(tag: string): string {
    "<" + tag + ">"
  }

  function CloseTag(tag: string): string {
    "</" + tag + ">"
  }

  /** One reference as `parse_response` builds it: `{'title': name, 'url': url}`. */
  datatype RefDict = RefDict(title: string, url: string)

  /** The tuple `(verdict, explanation, context, ref_list)`. */
  datatype Parsed = Parsed(verdict: string, explanation: string, context: string, references: seq<RefDict>)

  /** `s.split(sep)` has one piece more than there are occurrences; its first two pieces are those `split(sep, 1)` cuts at. */
  lemma SplitAllFront(s: string, sep: string)
    requires |sep| > 0
    ensures |SplitAll(s, sep)| >= 1
    ensures SplitOnce(s, sep).None? ==> SplitAll(s, sep) == [s]
    ensures SplitOnce(s, sep).Some? ==>
              (&& |SplitAll(s, sep)| >= 2
               && SplitAll(s, sep)[0] == SplitOnce(s, sep).value.0
               && SplitAll(s, sep)[1] == SplitAll(SplitOnce(s, sep).value.1, sep)[0])
  {
    match IndexOf(s, sep)
    case None =>
    case Some(i) =>
      var rest := s[i + |sep|..];
      match IndexOf(rest, sep)
      case None =>
      case Some(_) =>
  }

  /**
   * `response.split('<tag>')[1].split('</tag>')[0].strip()`: the text after the
   * first opening tag, up to the next opening or closing tag, stripped; an
   * IndexError when the opening tag does not occur.
   */
  function Section(response: string, tag: string): (r: Result<string, string>)
    ensures r.Failure? ==> r.error == IndexErrorText
  {
    SplitAllFront(response, OpenTag(tag));
    var parts := SplitAll(response, OpenTag(tag));
    if |parts| < 2 then Failure(IndexErrorText)
    else
      SplitAllFront(parts[1], CloseTag(tag));
      Success(Strip(SplitAll(parts[1], CloseTag(tag))[0]))
  }

  /** An occurrence inside a slice is an occurrence in the whole string, shifted by the slice's start. */
  lemma OccursInSlice(s: string, off: nat, u: string, sep: string, j: int)
    requires off + |u| <= |s| && s[off..off + |u|] == u
    requires OccursAt(u, sep, j)
    ensures OccursAt(s, sep, off + j)
  {
    assert u[j..j + |sep|] == sep;
    forall q | off + j <= q < off + j + |sep| ensures s[q] == sep[q - off - j] {
      assert sep[q - off - j] == u[j..j + |sep|][q - off - j] == u[q - off];
      assert u[q - off] == s[off..off + |u|][q - off];
    }
    assert s[off + j..off + j + |sep|] == sep;
  }

  /** An occurrence in a suffix is exactly an occurrence in the whole string past the cut. */
  lemma OccursShift(s: string, off: nat, sep: string, j: int)
    requires off <= |s|
    ensures OccursAt(s[off..], sep, j) <==> 0 <= j && OccursAt(s, sep, off + j)
  {
    if 0 <= j && off + j + |sep| <= |s| {
      assert s[off..][j..j + |sep|] == s[off + j..off + j + |sep|];
    }
  }

  /** The section is missing exactly when the opening tag occurs nowhere. */
  lemma SectionMissing(response: string, tag: string)
    ensures Section(response, tag).Failure? <==> forall j :: !OccursAt(response, OpenTag(tag), j)
  {
    SplitAllFront(response, OpenTag(tag));
    SplitOnceNone(response, OpenTag(tag));
  }

  /**
   * For a well-formed section `a <tag>body</tag> rest`, where `a` holds no
   * opening tag, no other opening tag starts before the closing tag ends and
   * no closing tag starts inside `body`, the section is `body` stripped.
   */
  lemma {:induction false} SectionWellFormed(response: string, tag: string, a: string, body: string, rest: string)
    requires response == a + OpenTag(tag) + body + CloseTag(tag) + rest
    requires forall j | 0 <= j < |a| :: !OccursAt(response, OpenTag(tag), j)
    requires forall j | |a| < j < |a| + |OpenTag(tag)| + |body| + |CloseTag(tag)| :: !OccursAt(response, OpenTag(tag), j)
    requires forall j | |a| + |OpenTag(tag)| <= j < |a| + |OpenTag(tag)| + |body| :: !OccursAt(response, CloseTag(tag), j)
    ensures Section(response, tag) == Success(Strip(body))
  {
    var open, close := OpenTag(tag), CloseTag(tag);
    var off := |a| + |open|;
    var t := body + close + rest;
    assert t == response[off..];
    assert |SplitAll(response, open)| >= 2 && SplitAll(response, open)[1] == SplitAll(t, open)[0] by {
      assert response == a + open + t;
      SplitOnceSpec(response, open, a, t);
      SplitAllFront(response, open);
    }
    var m := |body| + |close|;
    PieceAfterOpen(response, off, open, m);
    var piece := SplitAll(t, open)[0];
    CloseCut(response, off, piece, body, close, piece[m..]);
  }

  /**
   * The piece after an opening tag ends at the next opening tag, so it runs
   * at least `m` characters when no opening tag starts within them.
   */
  lemma PieceAfterOpen(response: string, off: nat, open: string, m: nat)
    requires |open| > 0 && off + m <= |response|
    requires forall j | off <= j < off + m :: !OccursAt(response, open, j)
    ensures var piece := SplitAll(response[off..], open)[0];
            m <= |piece| && piece == response[off..][..|piece|]
  {
    var t := response[off..];
    var piece := SplitAll(t, open)[0];
    SplitAllFront(t, open);
    match SplitOnce(t, open)
    case None =>
      assert piece == t;
    case Some((x, y)) =>
      SplitOnceSpec(t, open, x, y);
      assert OccursAt(t, open, |x|) by {
        assert t[|x|..|x| + |open|] == open;
      }
      OccursShift(response, off, open, |x|);
      assert piece == x && x == t[..|x|];
  }

  /** A piece `body + close + after` with no closing tag starting inside `body` is cut to `body`. */
  lemma CloseCut(response: string, off: nat, piece: string, body: string, close: string, after: string)
    requires |close| > 0 && off + |piece| <= |response| && response[off..off + |piece|] == piece
    requires piece == body + close + after
    requires forall j | off <= j < off + |body| :: !OccursAt(response, close, j)
    ensures SplitAll(piece, close)[0] == body
  {
    forall j | 0 <= j < |body| ensures !OccursAt(piece, close, j) {
      if OccursAt(piece, close, j) {
        OccursInSlice(response, off, piece, close, j);
      }
    }
    SplitOnceSpec(piece, close, body, after);
    SplitAllFront(piece, close);
  }

  /**
   * One line of the references section: a line that is not blank is split
   * on the first `". "`, and what follows on the first `" - "`; a line missing
   * either gives nothing (the ValueError is caught and logged).
   */
  function LineRef(line: string): (r: seq<RefDict>)
    ensures |r| <= 1
  {
    if Strip(line) == "" then []
    else
      match SplitOnce(line, ". ")
      case None => []
      case Some((_, rest)) => TitleUrl(rest)
  }

  /** The text after the number, split on the first `" - "` into title and url. */
  function TitleUrl(rest: string): (r: seq<RefDict>)
    ensures |r| <= 1
  {
    match SplitOnce(rest, " - ")
    case None => []
    case Some((name, url)) => [RefDict(name, url)]
  }

  /** A `". "` followed, not overlapping, by a `" - "`. */
  predicate HasReferenceShape(line: string) {
    exists i, k | 0 <= i && i + 2 <= k <= |line| :: OccursAt(line, ". ", i) && OccursAt(line, " - ", k)
  }

  /** `LineRef` with the blank test stated on the line itself. */
  lemma LineRefCases(line: string)
    ensures IsBlank(line) || SplitOnce(line, ". ").None? ==> LineRef(line) == []
    ensures !IsBlank(line) && SplitOnce(line, ". ").Some? ==> LineRef(line) == TitleUrl(SplitOnce(line, ". ").value.1)
  {
    StripSpec(line);
  }

  /** The shape holds exactly when both splits find their separator. */
  lemma ShapeSplits(line: string)
    ensures HasReferenceShape(line) <==>
              SplitOnce(line, ". ").Some? && SplitOnce(SplitOnce(line, ". ").value.1, " - ").Some?
  {
    IndexOfFromSpec(line, ". ", 0);
    if HasReferenceShape(line) {
      var i0, k0 :| 0 <= i0 && i0 + 2 <= k0 <= |line| && OccursAt(line, ". ", i0) && OccursAt(line, " - ", k0);
      var i := IndexOf(line, ". ").value;
      OccursShift(line, i + 2, " - ", k0 - (i + 2));
      SplitOnceNone(line[i + 2..], " - ");
    }
    if SplitOnce(line, ". ").Some? && SplitOnce(SplitOnce(line, ". ").value.1, " - ").Some? {
      var i := IndexOf(line, ". ").value;
      var rest := line[i + 2..];
      SplitOnceNone(rest, " - ");
      var k :| OccursAt(rest, " - ", k);
      OccursShift(line, i + 2, " - ", k);
      assert OccursAt(line, ". ", i) && OccursAt(line, " - ", i + 2 + k);
    }
  }

  /** A line yields a reference exactly when it is not blank and has the `n. title - url` shape. */
  lemma LineRefKept(line: string)
    ensures LineRef(line) != [] <==> !IsBlank(line) && HasReferenceShape(line)
  {
    LineRefCases(line);
    ShapeSplits(line);
  }

  /**
   * A kept reference: the title is the text between the first `". "` and the
   * first `" - "` after it, the url everything after that `" - "`; neither is
   * trimmed.
   */
  lemma LineRefParts(line: string, i: nat, k: nat)
    requires !IsBlank(line)
    requires i + 2 <= k && OccursAt(line, ". ", i) && OccursAt(line, " - ", k)
    requires forall j | 0 <= j < i :: !OccursAt(line, ". ", j)
    requires forall j | i + 2 <= j < k :: !OccursAt(line, " - ", j)
    ensures LineRef(line) == [RefDict(line[i + 2..k], line[k + 3..])]
  {
    var rest := line[i + 2..];
    assert SplitOnce(line, ". ") == Some((line[..i], rest)) by {
      assert line == line[..i] + ". " + rest;
      SplitOnceSpec(line, ". ", line[..i], rest);
    }
    assert SplitOnce(rest, " - ") == Some((line[i + 2..k], line[k + 3..])) by {
      var p := k - (i + 2);
      assert rest[..p] == line[i + 2..k];
      assert rest[p + 3..] == line[k + 3..];
      assert rest == rest[..p] + " - " + rest[p + 3..];
      forall j | 0 <= j < p ensures !OccursAt(rest, " - ", j) {
        OccursShift(line, i + 2, " - ", j);
      }
      SplitOnceSpec(rest, " - ", rest[..p], rest[p + 3..]);
    }
    LineRefCases(line);
  }

  /** `references.split('\n')` followed by the loop over its lines. */
  function References(text: string): seq<RefDict> {
    FlatMap(LineRef, SplitAll(text, "\n"))
  }

  /**
   * The loop keeps at most one reference per line, in line order: each
   * reference comes from some line, and when every line is kept the k-th
   * reference is the k-th line's.
   */
  lemma ReferencesFromLines(lines: seq<string>)
    ensures |FlatMap(LineRef, lines)| <= |lines|
    ensures forall r | r in FlatMap(LineRef, lines) :: exists k | 0 <= k < |lines| :: LineRef(lines[k]) == [r]
    ensures (forall k | 0 <= k < |lines| :: LineRef(lines[k]) != []) ==>
              (&& |FlatMap(LineRef, lines)| == |lines|
               && forall k | 0 <= k < |lines| :: LineRef(lines[k]) == [FlatMap(LineRef, lines)[k]])
  {
    FlatMapAtMostOne(LineRef, lines);
  }

  /** `parse_response(response)`: the four sections in order, then the references. */
  function Parse(response: string): Result<Parsed, string> {
    match Section(response, "verdict")
    case Failure(e) => Failure(e)
    case Success(verdict) =>
      match Section(response, "explanation")
      case Failure(e) => Failure(e)
      case Success(explanation) =>
        match Section(response, "context")
        case Failure(e) => Failure(e)
        case Success(context) =>
          match Section(response, "references")
          case Failure(e) => Failure(e)
          case Success(references) => Success(Parsed(verdict, explanation, context, References(references)))
  }

  /** `parse_response` raises IndexError exactly when one of the four opening tags is absent, and otherwise returns the four sections. */
  lemma ParseSpec(response: string)
    ensures Parse(response).Failure? <==>
              !Contains(response, "<verdict>") || !Contains(response, "<explanation>")
              || !Contains(response, "<context>") || !Contains(response, "<references>")
    ensures Parse(response).Failure? ==> Parse(response).error == IndexErrorText
    ensures Parse(response).Success? ==>
              && Success(Parse(response).value.verdict) == Section(response, "verdict")
              && Success(Parse(response).value.explanation) == Section(response, "explanation")
              && Success(Parse(response).value.context) == Section(response, "context")
              && Section(response, "references").Success?
              && Parse(response).value.references == References(Section(response, "references").value)
  {
    var tags := ["verdict", "explanation", "context", "references"];
    forall t | t in tags ensures Section(response, t).Failure? <==> !Contains(response, OpenTag(t)) {
      SectionMissing(response, t);
      ContainsIff(response, OpenTag(t));
    }
    assert OpenTag("verdict") == "<verdict>" && OpenTag("explanation") == "<explanation>";
    assert OpenTag("context") == "<context>" && OpenTag("references") == "<references>";
  }

  /** `parse_response` with its reference loop written out. */
  method ParseResponse(response: string) returns (r: Result<Parsed, string>)
    ensures r == Parse(response)
  {
    var verdict := Section(response, "verdict");
    var explanation := Section(response, "explanation");
    var context := Section(response, "context");
    var references := Section(response, "references");
    if verdict.Failure? || explanation.Failure? || context.Failure? || references.Failure? {
      return Failure(IndexErrorText);
    }
    var lines := SplitAll(references.value, "\n");
    var refList: seq<RefDict> := [];
    for i := 0 to |lines|
      invariant refList == FlatMap(LineRef, lines[..i])
    {
      assert lines[..i + 1][..i] == lines[..i];
      var line := lines[i];
      if Strip(line) != "" {
        match SplitOnce(line, ". ") {
          case None =>
          case Some((_, rest)) =>
            match SplitOnce(rest, " - ") {
              case None =>
              case Some((name, url)) =>
                refList := refList + [RefDict(name, url)];
            }
        }
      }
    }
    assert lines[..|lines|] == lines;
    return Success(Parsed(verdict.value, explanation.value, context.value, refList));
  }
}
