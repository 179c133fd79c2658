/**
 * Input sanitisation: `sanitize_query` for search queries and the href
 * post-processing of `sanitize_html`. The package copy and the top-level
 * `utils` copy are the same code, modelled once.
 */
module Sanitization {
  import opened Wrappers
  import opened Text
  import opened Json
  import opened Foreign
  import opened Folds

  /** The longest query `sanitize_query` returns. */
  const MaxQueryLength := 500

  /** The class `[\x00-\x1f<>]` the query sanitiser deletes. */
  predicate Unsafe(c: char) {
    c <= '\U{1f}' || c == '<' || c == '>'
  }

  /** What one character leaves behind under `re.sub(r'[\x00-\x1f<>]', '', q)`. */
  function KeepSafe(c: char): string {
    if Unsafe(c) then "" else [c]
  }

  /** `re.sub(r'[\x00-\x1f<>]', '', q)` */
  function DropUnsafe(q: string): string {
    FlatMap(KeepSafe, q)
  }

  /**
   * Deleting keeps every other character in order: the result is `q`
   * itself when `q` has nothing to delete, and otherwise has no unsafe
   * character and is no longer than `q`.
   */
  lemma {:induction false} DropUnsafeSpec(q: string)
    ensures |DropUnsafe(q)| <= |q|
    ensures forall k | 0 <= k < |DropUnsafe(q)| :: !Unsafe(DropUnsafe(q)[k])
    ensures (forall k | 0 <= k < |q| :: !Unsafe(q[k])) ==> DropUnsafe(q) == q
  {
    if q != [] {
      var init := q[..|q| - 1];
      DropUnsafeSpec(init);
      assert DropUnsafe(q) == DropUnsafe(init) + KeepSafe(q[|q| - 1]);
      if forall k | 0 <= k < |q| :: !Unsafe(q[k]) {
        assert forall k | 0 <= k < |init| :: init[k] == q[k];
        assert q == init + [q[|q| - 1]];
      }
    }
  }

  /** `re.sub` works character by character: deleting from `a + b` is deleting from each. */
  lemma DropUnsafeConcat(a: string, b: string)
    ensures DropUnsafe(a + b) == DropUnsafe(a) + DropUnsafe(b)
  {
    FlatMapConcat(KeepSafe, a, b);
  }

  /**
   * `sanitize_query(query)` as written: a non-`str` gives `""`; otherwise
   * strip, delete control characters and angle brackets, keep the first
   * 500 characters.
   */
  function SanitizeQuery(query: Json): (r: string)
    ensures |r| <= MaxQueryLength
  {
    if !query.JString? then ""
    else Take(DropUnsafe(Strip(query.s)), MaxQueryLength)
  }

  /** No character the query sanitiser deletes survives it. */
  lemma SanitizeQuerySafe(query: Json)
    ensures forall k | 0 <= k < |SanitizeQuery(query)| :: !Unsafe(SanitizeQuery(query)[k])
  {
    if query.JString? {
      DropUnsafeSpec(Strip(query.s));
    }
  }

  /**
   * The output is a prefix of the stripped input with the unsafe characters
   * deleted: it is cut short only at the 500-character limit.
   */
  lemma SanitizeQueryPrefix(q: string)
    ensures var r, d := SanitizeQuery(JString(q)), DropUnsafe(Strip(q));
            && r == d[..|r|]
            && (|r| < MaxQueryLength ==> r == d)
  {
  }

  /** A stripped query of at most 500 safe characters comes back unchanged. */
  lemma SanitizeQueryKeepsClean(q: string)
    requires |q| <= MaxQueryLength
    requires forall k | 0 <= k < |q| :: !Unsafe(q[k])
    requires q == [] || (!IsSpace(q[0]) && !IsSpace(q[|q| - 1]))
    ensures SanitizeQuery(JString(q)) == q
  {
    StripIdentity(q);
    DropUnsafeSpec(q);
  }

  /** `strip` leaves a string with no whitespace at either end unchanged. */
  lemma StripIdentity(s: string)
    requires s == [] || (!IsSpace(s[0]) && !IsSpace(s[|s| - 1]))
    ensures Strip(s) == s
  {
  }

  /** A query whose only leading character is a deleted control character. */
  const ControlledQuery := "\U{1}" + " a"

  /**
   * Stripping before deleting: a control character ahead of a space shields
   * the space from `strip`, so the "trimmed" output starts with whitespace,
   * and sanitising that output again changes it.
   */
  lemma SanitizeQueryUntrimmed()
    ensures SanitizeQuery(JString(ControlledQuery)) == " a"
    ensures IsSpace(SanitizeQuery(JString(ControlledQuery))[0])
    ensures SanitizeQuery(JString(SanitizeQuery(JString(ControlledQuery)))) == "a"
  {
    ControlledQueryStrips();
    ControlledQueryDrops();
    StripLeadingSpace();
    DropUnsafeSpec("a");
    assert SanitizeQuery(JString(ControlledQuery)) == Take(" a", MaxQueryLength) == " a";
    assert SanitizeQuery(JString(" a")) == Take(DropUnsafe("a"), MaxQueryLength);
  }

  lemma ControlledQueryStrips()
    ensures Strip(ControlledQuery) == ControlledQuery
  {
    var q := ControlledQuery;
    assert |q| == 3 && q[0] == '\U{1}' && q[2] == 'a';
    StripIdentity(q);
  }

  lemma ControlledQueryDrops()
    ensures DropUnsafe(ControlledQuery) == " a"
  {
    var q := ControlledQuery;
    assert q == ['\U{1}'] + " a";
    DropUnsafeConcat(['\U{1}'], " a");
    FlatMapSingle(KeepSafe, '\U{1}');
    DropUnsafeSpec(" a");
  }

  lemma StripLeadingSpace()
    ensures Strip(" a") == "a"
  {
    var s := " a";
    assert IsSpace(s[0]) && s[1..] == "a";
    StripIdentity("a");
  }

  /**
   * The sanitiser as its docstring describes it: delete the unsafe
   * characters, keep at most 500, and trim what is left, so that no
   * deletion or cut can bring whitespace to either end.
   */
  function SanitizeQueryTrimmed(query: Json): (r: string)
    ensures |r| <= MaxQueryLength
  {
    if !query.JString? then ""
    else
      StripSpec(Take(DropUnsafe(query.s), MaxQueryLength));
      Strip(Take(DropUnsafe(query.s), MaxQueryLength))
  }

  /**
   * The corrected sanitiser's output is at most 500 characters, has no
   * unsafe character and no whitespace at either end, and sanitising it
   * again gives it back.
   */
  lemma SanitizeQueryTrimmedSpec(query: Json)
    ensures var r := SanitizeQueryTrimmed(query);
            && (forall k | 0 <= k < |r| :: !Unsafe(r[k]))
            && (r != [] ==> !IsSpace(r[0]) && !IsSpace(r[|r| - 1]))
            && SanitizeQueryTrimmed(JString(r)) == r
  {
    if query.JString? {
      var d := DropUnsafe(query.s);
      DropUnsafeSpec(query.s);
      var t := Take(d, MaxQueryLength);
      StripSpec(t);
      var r := Strip(t);
      var i := LeadingSpace(t);
      forall k | 0 <= k < |r| ensures !Unsafe(r[k]) {
        assert r[k] == t[i + k] == d[i + k];
      }
      DropUnsafeSpec(r);
      StripIdentity(r);
    }
  }

  // ---------------------------------------------------------------------------
  // Links

  /**
   * `_is_allowed_href(href)`: false for None or `""` and where `urlparse`
   * raises; otherwise true exactly for the schemes http, https, mailto and
   * none.
   */
  function IsAllowedHref(lib: Library, href: Option<string>): (r: bool)
    ensures href.None? || href == Some("") ==> !r
    ensures r <==> href.Some? && href.value != ""
                   && lib.urlScheme(href.value) in {Some("http"), Some("https"), Some("mailto"), Some("")}
  {
    if href.None? || href.value == "" then false
    else
      match lib.urlScheme(href.value)
      case None => false
      case Some(scheme) => scheme in ["http", "https", "mailto", ""]
  }

  /** The text that opens a match of `href="([^"]*)"`. */
  const HrefOpen := "href=\""

  const LinkAttributes := " target=\"_blank\" rel=\"noopener noreferrer\""

  /** `replace_href` for the captured value `v`. */
  function ReplaceHref(lib: Library, v: string): (r: string)
    ensures IsAllowedHref(lib, Some(v)) ==> r == HrefOpen + v + "\"" + LinkAttributes
    ensures !IsAllowedHref(lib, Some(v)) ==> r == HrefOpen + "#\""
  {
    if IsAllowedHref(lib, Some(v)) then HrefOpen + v + "\"" + LinkAttributes
    else HrefOpen + "#\""
  }

  /** A match of `href="([^"]*)"` starts at index 0: the opener, then a closing quote somewhere after it. */
  predicate MatchesAtStart(s: string) {
    OccursAt(s, HrefOpen, 0) && IndexOfFrom(s, "\"", |HrefOpen|).Some?
  }

  /**
   * `re.sub(r'href="([^"]*)"', replace_href, s)`: scanning left to right,
   * each match is replaced and the scan resumes after it; every other
   * character is kept.
   */
  function RewriteHrefs(lib: Library, s: string): string
    decreases |s|
  {
    if s == [] then ""
    else if MatchesAtStart(s) then
      var q := IndexOfFrom(s, "\"", |HrefOpen|).value;
      ReplaceHref(lib, s[|HrefOpen|..q]) + RewriteHrefs(lib, s[q + 1..])
    else [s[0]] + RewriteHrefs(lib, s[1..])
  }

  /** Text with no `href="` in it passes through unchanged. */
  lemma {:induction false} RewriteNoHref(lib: Library, s: string)
    requires forall j :: !OccursAt(s, HrefOpen, j)
    ensures RewriteHrefs(lib, s) == s
    decreases |s|
  {
    if s != [] {
      assert !OccursAt(s, HrefOpen, 0);
      forall j ensures !OccursAt(s[1..], HrefOpen, j) {
        if 0 <= j && j + |HrefOpen| <= |s| - 1 {
          assert s[1..][j..j + |HrefOpen|] == s[j + 1..j + 1 + |HrefOpen|];
          assert !OccursAt(s, HrefOpen, j + 1);
        }
      }
      RewriteNoHref(lib, s[1..]);
    }
  }

  /**
   * A whole attribute `href="v"` (the value holding no quote) becomes the
   * replacement for `v`, and the scan goes on after the closing quote.
   */
  lemma RewriteAttribute(lib: Library, v: string, rest: string)
    requires forall k | 0 <= k < |v| :: v[k] != '"'
    ensures RewriteHrefs(lib, HrefOpen + v + "\"" + rest) == ReplaceHref(lib, v) + RewriteHrefs(lib, rest)
  {
    var s := HrefOpen + v + "\"" + rest;
    var n := |HrefOpen|;
    assert s[..n] == HrefOpen;
    assert OccursAt(s, HrefOpen, 0);
    IndexOfFromSpec(s, "\"", n);
    assert OccursAt(s, "\"", n + |v|) by {
      assert s[n + |v|] == '"';
      assert s[n + |v|..n + |v| + 1] == "\"";
    }
    var q := IndexOfFrom(s, "\"", n).value;
    assert q == n + |v| by {
      forall j | n <= j < n + |v| ensures !OccursAt(s, "\"", j) {
        assert s[j] == v[j - n];
        assert s[j..j + 1][0] == s[j];
      }
    }
    assert s[n..q] == v;
    assert s[q + 1..] == rest;
  }

  /** A prefix in which no match starts is copied as it is, and the scan then starts on the rest. */
  lemma {:induction false} RewriteCopies(lib: Library, s: string, n: nat)
    requires n <= |s|
    requires forall j | 0 <= j < n :: !MatchesAtStart(s[j..])
    ensures RewriteHrefs(lib, s) == s[..n] + RewriteHrefs(lib, s[n..])
  {
    if n == 0 {
      assert s[n..] == s;
    } else {
      var m := n - 1;
      calc {
        RewriteHrefs(lib, s);
        == { RewriteCopies(lib, s, m); }
        s[..m] + RewriteHrefs(lib, s[m..]);
        == { RewriteStep(lib, s[m..]); assert s[m..][1..] == s[n..]; }
        s[..m] + ([s[m]] + RewriteHrefs(lib, s[n..]));
        == { assert s[..m] + [s[m]] == s[..n]; }
        s[..n] + RewriteHrefs(lib, s[n..]);
      }
    }
  }

  /** Where no match starts, the scan copies one character. */
  lemma RewriteStep(lib: Library, s: string)
    requires s != [] && !MatchesAtStart(s)
    ensures RewriteHrefs(lib, s) == [s[0]] + RewriteHrefs(lib, s[1..])
  {
  }

  /**
   * `sanitize_html(content)`: a non-`str` or empty content gives `""`;
   * otherwise `bleach.clean` with the fixed allow-lists, then the href
   * rewrite.
   */
  function SanitizeHtml(lib: Library, content: Json): (r: string)
    ensures !content.JString? || content.s == "" ==> r == ""
  {
    if !content.JString? || content.s == "" then ""
    else RewriteHrefs(lib, lib.clean(content.s))
  }

  /** Cleaned HTML without any `href="` is returned as `bleach` left it. */
  lemma SanitizeHtmlNoLinks(lib: Library, content: string)
    requires content != ""
    requires forall j :: !OccursAt(lib.clean(content), HrefOpen, j)
    ensures SanitizeHtml(lib, JString(content)) == lib.clean(content)
  {
    RewriteNoHref(lib, lib.clean(content));
  }
}
