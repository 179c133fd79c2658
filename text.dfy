/**
 * The Python `str` operations the core relies on, over `seq<char>`:
 * strip, ASCII case mapping, single-character replace, `in`, `split(sep, 1)`,
 * `split(sep)`, `join`, `splitlines()`, slicing with clamping and `str(int)`.
 */
module Text {
  import opened Wrappers

  /** `c.isspace()`: the characters Python 3 treats as whitespace. */
  predicate IsSpace(c: char) {
    ('\t' <= c <= '\r') || ('\U{1c}' <= c <= '\U{1f}') || c == ' ' || c == '\U{85}' || c == '\U{a0}'
    || c == '\U{1680}' || ('\U{2000}' <= c <= '\U{200a}') || c == '\U{2028}' || c == '\U{2029}'
    || c == '\U{202f}' || c == '\U{205f}' || c == '\U{3000}'
  }

  /** `not s.strip()`: the string is empty or made of whitespace only. */
  predicate IsBlank(s: string) {
    forall k | 0 <= k < |s| :: IsSpace(s[k])
  }

  /** `s.lstrip()` */
  function TrimStart(s: string): (r: string)
    ensures |r| <= |s|
  {
    if |s| > 0 && IsSpace(s[0]) then TrimStart(s[1..]) else s
  }

  /** `s.rstrip()` */
  function TrimEnd(s: string): (r: string)
    ensures |r| <= |s|
  {
    if |s| > 0 && IsSpace(s[|s| - 1]) then TrimEnd(s[..|s| - 1]) else s
  }

  /** `s.strip()` */
  function Strip(s: string): string {
    TrimEnd(TrimStart(s))
  }

  /** `lstrip` removes a whitespace-only prefix and leaves a suffix that does not start with whitespace. */
  lemma {:induction false} TrimStartSpec(s: string)
    ensures |TrimStart(s)| <= |s| && TrimStart(s) == s[|s| - |TrimStart(s)|..]
    ensures forall k | 0 <= k < |s| - |TrimStart(s)| :: IsSpace(s[k])
    ensures TrimStart(s) != [] ==> !IsSpace(TrimStart(s)[0])
  {
    if |s| > 0 && IsSpace(s[0]) {
      TrimStartSpec(s[1..]);
      var r := TrimStart(s[1..]);
      assert s[1..][|s| - 1 - |r|..] == s[|s| - |r|..];
      forall k | 1 <= k < |s| - |r| ensures IsSpace(s[k]) {
        assert s[k] == s[1..][k - 1];
      }
    }
  }

  /** `rstrip` removes a whitespace-only suffix and leaves a prefix that does not end with whitespace. */
  lemma {:induction false} TrimEndSpec(s: string)
    ensures |TrimEnd(s)| <= |s| && TrimEnd(s) == s[..|TrimEnd(s)|]
    ensures forall k | |TrimEnd(s)| <= k < |s| :: IsSpace(s[k])
    ensures TrimEnd(s) != [] ==> !IsSpace(TrimEnd(s)[|TrimEnd(s)| - 1])
  {
    if |s| > 0 && IsSpace(s[|s| - 1]) {
      TrimEndSpec(s[..|s| - 1]);
      var r := TrimEnd(s[..|s| - 1]);
      assert s[..|s| - 1][..|r|] == s[..|r|];
      forall k | |r| <= k < |s| - 1 ensures IsSpace(s[k]) {
        assert s[k] == s[..|s| - 1][k];
      }
    }
  }

  /** The number of leading characters `lstrip` drops. */
  function LeadingSpace(s: string): nat {
    |s| - |TrimStart(s)|
  }

  /**
   * `strip` leaves the middle part of `s` that starts after the leading
   * whitespace, dropping only whitespace at both ends; the result has no
   * whitespace at either end and is empty exactly for a blank string.
   */
  lemma StripSpec(s: string)
    ensures var r, i := Strip(s), LeadingSpace(s);
            && i + |r| <= |s| && r == s[i..i + |r|]
            && (forall k | 0 <= k < i :: IsSpace(s[k]))
            && (forall k | i + |r| <= k < |s| :: IsSpace(s[k]))
            && (r != [] ==> !IsSpace(r[0]) && !IsSpace(r[|r| - 1]))
            && (r == [] <==> IsBlank(s))
  {
    var t := TrimStart(s);
    TrimStartSpec(s);
    TrimEndSpec(t);
    var r := TrimEnd(t);
    var i := |s| - |t|;
    assert r == s[i..i + |r|];
    forall k | i + |r| <= k < |s| ensures IsSpace(s[k]) {
      assert s[k] == t[k - i];
    }
  }

  /** A non-empty strip result is not blank. */
  lemma StrippedNotBlank(s: string)
    requires Strip(s) != []
    ensures !IsBlank(Strip(s))
  {
    StripSpec(s);
    assert !IsSpace(Strip(s)[0]);
  }

  function UpperChar(c: char): char {
    if 'a' <= c <= 'z' then (c as int - 32) as char else c
  }

  function LowerChar(c: char): char {
    if 'A' <= c <= 'Z' then (c as int + 32) as char else c
  }

  /** `s.upper()`, for the ASCII letters. */
  function ToUpper(s: string): string {
    seq(|s|, k requires 0 <= k < |s| => UpperChar(s[k]))
  }

  /** `s.lower()`, for the ASCII letters. */
  function ToLower(s: string): string {
    seq(|s|, k requires 0 <= k < |s| => LowerChar(s[k]))
  }

  /** Lower-casing neither creates nor removes whitespace. */
  lemma LowerCharSpace(c: char)
    ensures IsSpace(LowerChar(c)) <==> IsSpace(c)
  {
  }

  lemma {:induction false} TrimStartLower(s: string)
    ensures TrimStart(ToLower(s)) == ToLower(TrimStart(s))
    decreases |s|
  {
    if |s| > 0 {
      LowerCharSpace(s[0]);
      if IsSpace(s[0]) {
        assert ToLower(s)[1..] == ToLower(s[1..]);
        TrimStartLower(s[1..]);
      }
    }
  }

  lemma {:induction false} TrimEndLower(s: string)
    ensures TrimEnd(ToLower(s)) == ToLower(TrimEnd(s))
    decreases |s|
  {
    if |s| > 0 {
      LowerCharSpace(s[|s| - 1]);
      if IsSpace(s[|s| - 1]) {
        assert ToLower(s)[..|s| - 1] == ToLower(s[..|s| - 1]);
        TrimEndLower(s[..|s| - 1]);
      }
    }
  }

  /** `s.strip().lower() == s.lower().strip()` */
  lemma StripLower(s: string)
    ensures ToLower(Strip(s)) == Strip(ToLower(s))
  {
    TrimStartLower(s);
    TrimEndLower(TrimStart(s));
  }

  lemma {:induction false} TrimStartBlankPrefix(w: string, s: string)
    requires IsBlank(w)
    ensures TrimStart(w + s) == TrimStart(s)
    decreases |w|
  {
    if w == [] {
      assert w + s == s;
    } else {
      assert (w + s)[0] == w[0];
      assert (w + s)[1..] == w[1..] + s;
      TrimStartBlankPrefix(w[1..], s);
    }
  }

  lemma {:induction false} TrimStartAppend(s: string, t: string)
    requires !IsBlank(s)
    ensures TrimStart(s + t) == TrimStart(s) + t
    decreases |s|
  {
    assert (s + t)[0] == s[0];
    if IsSpace(s[0]) {
      assert (s + t)[1..] == s[1..] + t;
      TrimStartAppend(s[1..], t);
    }
  }

  lemma {:induction false} TrimEndBlankSuffix(s: string, w: string)
    requires IsBlank(w)
    ensures TrimEnd(s + w) == TrimEnd(s)
    decreases |w|
  {
    if w == [] {
      assert s + w == s;
    } else {
      var w' := w[..|w| - 1];
      assert (s + w)[|s + w| - 1] == w[|w| - 1];
      assert (s + w)[..|s + w| - 1] == s + w';
      TrimEndBlankSuffix(s, w');
    }
  }

  /** Whitespace added around a string does not change what `strip` leaves. */
  lemma StripSurrounding(w1: string, s: string, w2: string)
    requires IsBlank(w1) && IsBlank(w2)
    ensures Strip(w1 + s + w2) == Strip(s)
  {
    assert w1 + s + w2 == w1 + (s + w2);
    TrimStartBlankPrefix(w1, s + w2);
    if IsBlank(s) {
      assert IsBlank(s + w2) by {
        forall k | 0 <= k < |s + w2| ensures IsSpace((s + w2)[k]) {
          if k < |s| { assert (s + w2)[k] == s[k]; } else { assert (s + w2)[k] == w2[k - |s|]; }
        }
      }
      TrimStartBlankPrefix(s + w2, "");
      TrimStartBlankPrefix(s, "");
      assert s + w2 + "" == s + w2 && s + "" == s;
    } else {
      TrimStartAppend(s, w2);
      TrimEndBlankSuffix(TrimStart(s), w2);
    }
  }

  /** `s.replace(a, b)` for one-character `a` and `b`. */
  function ReplaceChar(s: string, a: char, b: char): string {
    seq(|s|, k requires 0 <= k < |s| => if s[k] == a then b else s[k])
  }

  /** After `s.replace(a, b)` with `a != b`, no `a` is left. */
  lemma ReplaceCharRemoves(s: string, a: char, b: char)
    requires a != b
    ensures forall k | 0 <= k < |ReplaceChar(s, a, b)| :: ReplaceChar(s, a, b)[k] != a
  {
  }

  /** `s[:n]` */
  function Take(s: string, n: nat): string {
    if n <= |s| then s[..n] else s
  }

  /** `s[i:j]` with Python's clamping of out-of-range ends (for 0 <= i). */
  function Slice(s: string, i: nat, j: nat): string {
    var hi := if j <= |s| then j else |s|;
    if i <= hi then s[i..hi] else ""
  }

  /** `sub` occurs in `s` starting at index `j`. */
  predicate OccursAt(s: string, sub: string, j: int) {
    0 <= j && j + |sub| <= |s| && s[j..j + |sub|] == sub
  }

  /** `s.find(sub, i)`, with None for -1. */
  function IndexOfFrom(s: string, sub: string, i: nat): (r: Option<nat>)
    requires i <= |s|
    decreases |s| - i
    ensures r.Some? ==> i <= r.value && r.value + |sub| <= |s|
  {
    if OccursAt(s, sub, i) then Some(i)
    else if i == |s| then None
    else IndexOfFrom(s, sub, i + 1)
  }

  /** The search finds the FIRST occurrence at or after `i`, and None exactly when there is none. */
  lemma {:induction false} IndexOfFromSpec(s: string, sub: string, i: nat)
    requires i <= |s|
    decreases |s| - i
    ensures var r := IndexOfFrom(s, sub, i);
            && (r.Some? ==> i <= r.value && OccursAt(s, sub, r.value))
            && (r.Some? ==> forall j | i <= j < r.value :: !OccursAt(s, sub, j))
            && (r.None? <==> forall j | i <= j :: !OccursAt(s, sub, j))
  {
    if !OccursAt(s, sub, i) && i < |s| {
      IndexOfFromSpec(s, sub, i + 1);
    }
  }

  /** `s.find(sub)`, with None for -1. */
  function IndexOf(s: string, sub: string): Option<nat> {
    IndexOfFrom(s, sub, 0)
  }

  /** `sub in s` */
  predicate Contains(s: string, sub: string) {
    IndexOf(s, sub).Some?
  }

  /** `in` holds exactly when there is an occurrence. */
  lemma ContainsIff(s: string, sub: string)
    ensures Contains(s, sub) <==> exists j :: OccursAt(s, sub, j)
  {
    IndexOfFromSpec(s, sub, 0);
  }

  /**
   * `a, b = s.split(sep, 1)`: None where Python raises ValueError because `sep`
   * does not occur (too few values to unpack).
   */
  function SplitOnce(s: string, sep: string): Option<(string, string)> {
    match IndexOf(s, sep)
    case None => None
    case Some(i) => Some((s[..i], s[i + |sep|..]))
  }

  /** `split(sep, 1)` cuts at the FIRST occurrence of `sep`, and only there. */
  lemma SplitOnceSpec(s: string, sep: string, a: string, b: string)
    ensures SplitOnce(s, sep) == Some((a, b))
        <==> s == a + sep + b && forall j | 0 <= j < |a| :: !OccursAt(s, sep, j)
  {
    IndexOfFromSpec(s, sep, 0);
    if SplitOnce(s, sep) == Some((a, b)) {
      var i := IndexOf(s, sep).value;
      assert s[i..i + |sep|] == sep;
      assert s == s[..i] + s[i..i + |sep|] + s[i + |sep|..];
    }
    if s == a + sep + b && forall j | 0 <= j < |a| :: !OccursAt(s, sep, j) {
      assert s[|a|..|a| + |sep|] == sep;
      assert OccursAt(s, sep, |a|);
      var i := IndexOf(s, sep).value;
      assert i == |a|;
      assert s[..i] == a;
      assert s[i + |sep|..] == b;
    }
  }

  lemma SplitOnceNone(s: string, sep: string)
    ensures SplitOnce(s, sep).None? <==> forall j :: !OccursAt(s, sep, j)
  {
    IndexOfFromSpec(s, sep, 0);
  }

  /** `s.split(sep)` for a non-empty separator. */
  function SplitAll(s: string, sep: string): (parts: seq<string>)
    requires |sep| > 0
    decreases |s|
  {
    match IndexOf(s, sep)
    case None => [s]
    case Some(i) => [s[..i]] + SplitAll(s[i + |sep|..], sep)
  }

  /** `sep.join(parts)` */
  function Join(parts: seq<string>, sep: string): string
    decreases |parts|
  {
    if |parts| == 0 then ""
    else if |parts| == 1 then parts[0]
    else parts[0] + sep + Join(parts[1..], sep)
  }

  /** `s.split(sep)` always has a first piece. */
  lemma SplitAllNonEmpty(s: string, sep: string)
    requires |sep| > 0
    ensures |SplitAll(s, sep)| >= 1
  {
    match IndexOf(s, sep)
    case None =>
    case Some(_) =>
  }

  /** At the first occurrence of `sep`: the text before it holds no `sep`, and `s` is that text, `sep` and the rest. */
  lemma FirstCut(s: string, sep: string)
    requires |sep| > 0 && IndexOf(s, sep).Some?
    ensures var i := IndexOf(s, sep).value;
            && s == s[..i] + sep + s[i + |sep|..]
            && !Contains(s[..i], sep)
  {
    var i := IndexOf(s, sep).value;
    var head := s[..i];
    assert s == head + sep + s[i + |sep|..] by {
      IndexOfFromSpec(s, sep, 0);
      assert s[i..i + |sep|] == sep;
      assert s == s[..i] + s[i..i + |sep|] + s[i + |sep|..];
    }
    assert forall j | 0 <= j :: !OccursAt(head, sep, j) by {
      IndexOfFromSpec(s, sep, 0);
      forall j | 0 <= j ensures !OccursAt(head, sep, j) {
        if j + |sep| <= |head| {
          assert !OccursAt(s, sep, j);
          assert s[j..j + |sep|] == head[j..j + |sep|];
        }
      }
    }
    IndexOfFromSpec(head, sep, 0);
  }

  /** `sep.join(s.split(sep)) == s`: split and join are inverse. */
  lemma {:induction false} JoinSplitAll(s: string, sep: string)
    requires |sep| > 0
    ensures Join(SplitAll(s, sep), sep) == s
    decreases |s|
  {
    match IndexOf(s, sep)
    case None =>
    case Some(i) =>
      var rest := s[i + |sep|..];
      JoinSplitAll(rest, sep);
      FirstCut(s, sep);
      SplitAllNonEmpty(rest, sep);
      JoinCons(s[..i], SplitAll(rest, sep), sep);
  }

  /** No piece of `s.split(sep)` contains the separator. */
  lemma {:induction false} SplitAllPieces(s: string, sep: string)
    requires |sep| > 0
    ensures forall k | 0 <= k < |SplitAll(s, sep)| :: !Contains(SplitAll(s, sep)[k], sep)
    decreases |s|
  {
    IndexOfFromSpec(s, sep, 0);
    match IndexOf(s, sep)
    case None =>
    case Some(i) =>
      var rest := s[i + |sep|..];
      SplitAllPieces(rest, sep);
      FirstCut(s, sep);
      var tail := SplitAll(rest, sep);
      assert forall k | 1 <= k < |[s[..i]] + tail| :: ([s[..i]] + tail)[k] == tail[k - 1];
  }

  lemma JoinCons(head: string, tail: seq<string>, sep: string)
    requires |tail| >= 1
    ensures Join([head] + tail, sep) == head + sep + Join(tail, sep)
  {
    assert ([head] + tail)[1..] == tail;
  }

  /**
   * The characters at which `str.splitlines()` breaks a line
   * (`\r\n` is one break, handled in `SplitLines`).
   */
  predicate IsLineBreak(c: char) {
    c == '\n' || c == '\r' || c == '\U{b}' || c == '\U{c}' || ('\U{1c}' <= c <= '\U{1e}')
    || c == '\U{85}' || c == '\U{2028}' || c == '\U{2029}'
  }

  /** The index of the first line break at or after `i`. */
  function FirstLineBreakFrom(s: string, i: nat): (r: Option<nat>)
    requires i <= |s|
    decreases |s| - i
    ensures r.Some? ==> i <= r.value < |s| && IsLineBreak(s[r.value])
    ensures r.Some? ==> forall j | i <= j < r.value :: !IsLineBreak(s[j])
    ensures r.None? ==> forall j | i <= j < |s| :: !IsLineBreak(s[j])
  {
    if i == |s| then None
    else if IsLineBreak(s[i]) then Some(i)
    else FirstLineBreakFrom(s, i + 1)
  }

  /** `s.splitlines()`: no trailing empty line, `\r\n` counted once. */
  function SplitLines(s: string): seq<string>
    decreases |s|
  {
    if s == [] then []
    else
      match FirstLineBreakFrom(s, 0)
      case None => [s]
      case Some(i) =>
        var width := if s[i] == '\r' && i + 1 < |s| && s[i + 1] == '\n' then 2 else 1;
        [s[..i]] + SplitLines(s[i + width..])
  }

  /** No line that `splitlines` returns contains a line break, and there are at most as many lines as characters. */
  lemma {:induction false} SplitLinesSpec(s: string)
    decreases |s|
    ensures |SplitLines(s)| <= |s|
    ensures forall k, j | 0 <= k < |SplitLines(s)| && 0 <= j < |SplitLines(s)[k]| :: !IsLineBreak(SplitLines(s)[k][j])
  {
    if s != [] {
      match FirstLineBreakFrom(s, 0)
      case None =>
      case Some(i) =>
        var width := if s[i] == '\r' && i + 1 < |s| && s[i + 1] == '\n' then 2 else 1;
        SplitLinesSpec(s[i + width..]);
        var lines := SplitLines(s);
        assert lines == [s[..i]] + SplitLines(s[i + width..]);
        forall k, j | 0 <= k < |lines| && 0 <= j < |lines[k]| ensures !IsLineBreak(lines[k][j]) {
          if k > 0 { assert lines[k] == SplitLines(s[i + width..])[k - 1]; }
        }
    }
  }

  function DigitChar(d: nat): char
    requires d < 10
  {
    ('0' as int + d) as char
  }

  /** `str(n)` for a natural number: decimal digits, no leading zeros. */
  function NatToString(n: nat): (r: string)
    decreases n
    ensures |r| >= 1
    ensures n < 10 <==> |r| == 1
    ensures forall k | 0 <= k < |r| :: '0' <= r[k] <= '9'
  {
    if n < 10 then [DigitChar(n)] else NatToString(n / 10) + [DigitChar(n % 10)]
  }

  /** `str(i)` for a Python int. */
  function IntToString(i: int): string {
    if i < 0 then "-" + NatToString(-i) else NatToString(i)
  }

  /** `str(i)` is made of decimal digits and an optional leading minus sign. */
  lemma IntToStringChars(i: int)
    ensures forall k | 0 <= k < |IntToString(i)| :: '0' <= IntToString(i)[k] <= '9' || IntToString(i)[k] == '-'
  {
    if i < 0 {
      var d := NatToString(-i);
      assert forall k | 1 <= k < |"-" + d| :: ("-" + d)[k] == d[k - 1];
    }
  }

  lemma {:induction false} NatToStringInjective(a: nat, b: nat)
    requires NatToString(a) == NatToString(b)
    ensures a == b
    decreases a
  {
    var sa, sb := NatToString(a), NatToString(b);
    if a < 10 && b < 10 {
      assert sa[0] == DigitChar(a) && sb[0] == DigitChar(b);
    } else if a >= 10 && b >= 10 {
      assert sa[|sa| - 1] == DigitChar(a % 10);
      assert sb[|sb| - 1] == DigitChar(b % 10);
      assert sa[..|sa| - 1] == NatToString(a / 10);
      assert sb[..|sb| - 1] == NatToString(b / 10);
      NatToStringInjective(a / 10, b / 10);
    }
  }

  /** Distinct integers print differently: `str` is injective on `int`. */
  lemma IntToStringInjective(a: int, b: int)
    requires IntToString(a) == IntToString(b)
    ensures a == b
  {
    var sa, sb := IntToString(a), IntToString(b);
    assert (sa[0] == '-' <==> a < 0) && (sb[0] == '-' <==> b < 0);
    if a < 0 && b < 0 {
      assert sa[1..] == NatToString(-a) && sb[1..] == NatToString(-b);
      NatToStringInjective(-a, -b);
    } else if a >= 0 && b >= 0 {
      NatToStringInjective(a, b);
    }
  }
}
