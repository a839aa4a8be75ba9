/** The JavaScript string operations the application relies on:
    `trim`, `toUpperCase`/`toLowerCase` (ASCII letters only), `startsWith`,
    `includes`, `indexOf`/`lastIndexOf` of a character, `split` on a
    character, `join`, global literal replacement and the decimal rendering
    of an integer. */
module JsStrings {
  import opened Wrappers

  // ---------------------------------------------------------------------
  // Whitespace and trim
  // ---------------------------------------------------------------------

  /** The characters `String.prototype.trim` removes: the WhiteSpace and
      LineTerminator code points of ECMAScript. */
  predicate IsWhitespace(c: char)
  {
    || c == ' ' || c == '\t' || c == '\n' || c == '\r'
    || c == '\U{000B}' || c == '\U{000C}' || c == '\U{00A0}' || c == '\U{1680}'
    || ('\U{2000}' <= c <= '\U{200A}')
    || c == '\U{2028}' || c == '\U{2029}' || c == '\U{202F}' || c == '\U{205F}'
    || c == '\U{3000}' || c == '\U{FEFF}'
  }

  /** Every character of `s` from position `lo` up to `hi` is whitespace. */
  predicate WhitespaceBetween(s: string, lo: nat, hi: nat)
    requires lo <= hi <= |s|
  {
    forall k :: lo <= k < hi ==> IsWhitespace(s[k])
  }

  predicate AllWhitespace(s: string)
  {
    WhitespaceBetween(s, 0, |s|)
  }

  /** Neither end of `s` is whitespace. */
  predicate IsTrimmed(s: string)
  {
    s == [] || (!IsWhitespace(s[0]) && !IsWhitespace(s[|s| - 1]))
  }

  /** `r` is the part of `s` from position `i` on, with only whitespace
      before and after it. */
  predicate InfixAt(s: string, r: string, i: nat)
  {
    && i + |r| <= |s| && r == s[i..i + |r|]
    && WhitespaceBetween(s, 0, i) && WhitespaceBetween(s, i + |r|, |s|)
  }

  /** The first position at or after `i` that is not whitespace. */
  function SkipLeading(s: string, i: nat): (j: nat)
    requires i <= |s|
    ensures i <= j <= |s| && WhitespaceBetween(s, i, j)
    ensures j == |s| || !IsWhitespace(s[j])
    decreases |s| - i
  {
    if i < |s| && IsWhitespace(s[i]) then SkipLeading(s, i + 1) else i
  }

  /** The end of `s[lo..hi]` once trailing whitespace is dropped. */
  function SkipTrailing(s: string, lo: nat, hi: nat): (j: nat)
    requires lo <= hi <= |s|
    ensures lo <= j <= hi && WhitespaceBetween(s, j, hi)
    ensures j == lo || !IsWhitespace(s[j - 1])
    decreases hi - lo
  {
    if lo < hi && IsWhitespace(s[hi - 1]) then SkipTrailing(s, lo, hi - 1) else hi
  }

  /** `s.trim()`: the longest infix of `s` that neither starts nor ends with
      whitespace, obtained by removing whitespace from both ends only. */
  function Trim(s: string): (r: string)
    ensures IsTrimmed(r)
    ensures r == [] <==> AllWhitespace(s)
    ensures exists i: nat :: InfixAt(s, r, i)
  {
    var a := SkipLeading(s, 0);
    var b := SkipTrailing(s, a, |s|);
    assert a == b ==> WhitespaceBetween(s, 0, |s|);
    assert InfixAt(s, s[a..b], a);
    s[a..b]
  }

  /** A trimmed string is its own trim. */
  lemma TrimOfTrimmed(s: string)
    requires IsTrimmed(s)
    ensures Trim(s) == s
  {
  }

  /** Trimming twice is trimming once. */
  lemma TrimIdempotent(s: string)
    ensures Trim(Trim(s)) == Trim(s)
  {
    TrimOfTrimmed(Trim(s));
  }

  // ---------------------------------------------------------------------
  // Case mapping (ASCII letters)
  // ---------------------------------------------------------------------

  function UpperChar(c: char): char
  {
    if 'a' <= c <= 'z' then (c as int - 32) as char else c
  }

  function LowerChar(c: char): char
  {
    if 'A' <= c <= 'Z' then (c as int + 32) as char else c
  }

  function ToUpper(s: string): string
  {
    seq(|s|, i requires 0 <= i < |s| => UpperChar(s[i]))
  }

  function ToLower(s: string): string
  {
    seq(|s|, i requires 0 <= i < |s| => LowerChar(s[i]))
  }

  // ---------------------------------------------------------------------
  // Searching
  // ---------------------------------------------------------------------

  predicate StartsWith(s: string, prefix: string)
  {
    |prefix| <= |s| && s[..|prefix|] == prefix
  }

  /** `p` occurs in `s` starting at position `i`. */
  predicate OccursAt(s: string, p: string, i: nat)
  {
    i + |p| <= |s| && s[i..i + |p|] == p
  }

  /** `s.includes(p)`: `p` occurs somewhere in `s` (always true of ""). */
  predicate Includes(s: string, p: string)
  {
    exists i: nat :: i <= |s| && OccursAt(s, p, i)
  }

  /** `s.indexOf(c)` as an option: the first position holding `c`. */
  function IndexOfChar(s: string, c: char): (r: Option<nat>)
    ensures r.None? <==> c !in s
    ensures r.Some? ==> r.value < |s| && s[r.value] == c && c !in s[..r.value]
    decreases |s|
  {
    if |s| == 0 then None
    else if s[0] == c then Some(0)
    else match IndexOfChar(s[1..], c)
      case None => None
      case Some(i) => Some(i + 1)
  }

  /** `s.lastIndexOf(c)` as an option: the last position holding `c`. */
  function LastIndexOfChar(s: string, c: char): (r: Option<nat>)
    ensures r.None? <==> c !in s
    ensures r.Some? ==> r.value < |s| && s[r.value] == c && c !in s[r.value + 1..]
    decreases |s|
  {
    if |s| == 0 then None
    else if s[|s| - 1] == c then Some(|s| - 1)
    else LastIndexOfChar(s[..|s| - 1], c)
  }

  // ---------------------------------------------------------------------
  // split and join
  // ---------------------------------------------------------------------

  /** `s.split(sep)` for a one-character separator: the maximal separator-free
      pieces, always at least one (`"".split('\n')` is `[""]`). */
  function Split(s: string, sep: char): (parts: seq<string>)
    ensures |parts| >= 1
    ensures forall k :: 0 <= k < |parts| ==> sep !in parts[k]
    decreases |s|
  {
    match IndexOfChar(s, sep)
    case None => [s]
    case Some(i) => [s[..i]] + Split(s[i + 1..], sep)
  }

  /** `parts.join(sep)`. */
  function Join(parts: seq<string>, sep: string): string
  {
    if |parts| == 0 then ""
    else if |parts| == 1 then parts[0]
    else parts[0] + sep + Join(parts[1..], sep)
  }

  /** Joining the pieces of a split with the same separator restores the text. */
  lemma {:induction false} JoinSplit(s: string, sep: char)
    ensures Join(Split(s, sep), [sep]) == s
    decreases |s|
  {
    match IndexOfChar(s, sep)
    case None =>
    case Some(i) =>
      var rest := Split(s[i + 1..], sep);
      JoinSplit(s[i + 1..], sep);
      var parts := [s[..i]] + rest;
      assert parts[1..] == rest;
      calc {
        Join(parts, [sep]);
        s[..i] + [sep] + Join(rest, [sep]);
        s[..i] + [sep] + s[i + 1..];
        s;
      }
  }

  /** The first separator after a separator-free prefix is the one that
      ends the prefix. */
  lemma {:induction false} IndexOfCharAfter(a: string, sep: char, b: string)
    requires sep !in a
    ensures IndexOfChar(a + [sep] + b, sep) == Some(|a|)
    decreases |a|
  {
    if a != [] {
      assert (a + [sep] + b)[1..] == a[1..] + [sep] + b;
      IndexOfCharAfter(a[1..], sep, b);
    }
  }

  /** Splitting a join of separator-free pieces gives the pieces back. */
  lemma {:induction false} SplitJoin(parts: seq<string>, sep: char)
    requires |parts| >= 1
    requires forall k :: 0 <= k < |parts| ==> sep !in parts[k]
    ensures Split(Join(parts, [sep]), sep) == parts
    decreases |parts|
  {
    if |parts| > 1 {
      var a, tail := parts[0], Join(parts[1..], [sep]);
      var s := a + [sep] + tail;
      assert Join(parts, [sep]) == s;
      IndexOfCharAfter(a, sep, tail);
      assert s[..|a|] == a;
      assert s[|a| + 1..] == tail;
      assert Split(s, sep) == [a] + Split(tail, sep);
      SplitJoin(parts[1..], sep);
      assert parts == [a] + parts[1..];
    }
  }

  // ---------------------------------------------------------------------
  // Global literal replacement
  // ---------------------------------------------------------------------

  /** `s.replace(/p/g, v)` for a pattern matching the literal `p`: occurrences
      are found left to right and never overlap, and the text of `v` is
      inserted literally. */
  function ReplaceAll(s: string, p: string, v: string): string
    requires |p| > 0
    decreases |s|
  {
    if |s| < |p| then s
    else if s[..|p|] == p then v + ReplaceAll(s[|p|..], p, v)
    else [s[0]] + ReplaceAll(s[1..], p, v)
  }

  /** Replacing a pattern that does not occur changes nothing. */
  lemma {:induction false} ReplaceAllAbsent(s: string, p: string, v: string)
    requires |p| > 0
    requires !Includes(s, p)
    ensures ReplaceAll(s, p, v) == s
    decreases |s|
  {
    if |s| >= |p| {
      assert !OccursAt(s, p, 0);
      assert !Includes(s[1..], p) by {
        forall i: nat | i <= |s[1..]| ensures !OccursAt(s[1..], p, i) {
          assert !OccursAt(s, p, i + 1);
          if i + |p| <= |s[1..]| {
            assert s[1..][i..i + |p|] == s[i + 1..i + 1 + |p|];
          }
        }
      }
      ReplaceAllAbsent(s[1..], p, v);
    }
  }

  /** Characters before the first position where the pattern starts are
      copied to the front of the result unchanged. */
  lemma {:induction false} ReplaceAllKeepsPrefix(s: string, p: string, v: string, n: nat)
    requires |p| > 0 && n <= |s|
    requires forall m: nat :: m < n ==> !OccursAt(s, p, m)
    ensures n <= |ReplaceAll(s, p, v)| && ReplaceAll(s, p, v)[..n] == s[..n]
    decreases n
  {
    if n > 0 && |s| >= |p| {
      assert !OccursAt(s, p, 0);
      forall m: nat | m < n - 1
        ensures !OccursAt(s[1..], p, m)
      {
        assert !OccursAt(s, p, m + 1);
        if m + |p| <= |s[1..]| {
          assert s[1..][m..m + |p|] == s[m + 1..m + 1 + |p|];
        }
      }
      ReplaceAllKeepsPrefix(s[1..], p, v, n - 1);
      var r := ReplaceAll(s[1..], p, v);
      assert ([s[0]] + r)[..n] == [s[0]] + r[..n - 1];
      assert s[..n] == [s[0]] + s[1..][..n - 1];
    }
  }

  /** Occurrences move with the start of a suffix. */
  lemma OccursInSuffix(s: string, p: string, k: nat, m: nat)
    requires k <= |s|
    ensures OccursAt(s[k..], p, m) <==> OccursAt(s, p, m + k)
  {
    if m + |p| <= |s[k..]| {
      assert s[k..][m..m + |p|] == s[m + k..m + k + |p|];
    }
  }

  /** Occurrences move with text put in front. */
  lemma OccursAfterPrefix(a: string, w: string, q: string, i: nat)
    requires OccursAt(w, q, i)
    ensures OccursAt(a + w, q, |a| + i)
  {
    assert (a + w)[|a| + i..|a| + i + |q|] == w[i..i + |q|];
  }

  /** An occurrence of `q` at `n` that no occurrence of the pattern overlaps
      is still present after the replacement (shifted, but intact). */
  lemma {:induction false} ReplaceAllKeepsOccurrence(s: string, p: string, v: string, q: string, n: nat)
    requires |p| > 0 && |q| > 0
    requires OccursAt(s, q, n)
    requires forall m: nat :: m < n + |q| && n < m + |p| ==> !OccursAt(s, p, m)
    ensures Includes(ReplaceAll(s, p, v), q)
    decreases |s|
  {
    if |s| < |p| {
      assert OccursAt(ReplaceAll(s, p, v), q, n);
    } else if s[..|p|] == p {
      ReplaceAllKeepsOccurrenceAfterMatch(s, p, v, q, n);
    } else if n == 0 {
      ReplaceAllKeepsOccurrenceAtStart(s, p, v, q);
    } else {
      var t := s[1..];
      OccursInSuffix(s, q, 1, n - 1);
      forall m: nat | m < n - 1 + |q| && n - 1 < m + |p|
        ensures !OccursAt(t, p, m)
      {
        OccursInSuffix(s, p, 1, m);
      }
      ReplaceAllKeepsOccurrence(t, p, v, q, n - 1);
      var w := ReplaceAll(t, p, v);
      var i: nat :| i <= |w| && OccursAt(w, q, i);
      OccursAfterPrefix([s[0]], w, q, i);
    }
  }

  /** The case of `ReplaceAllKeepsOccurrence` where the pattern starts `s`. */
  lemma {:induction false} ReplaceAllKeepsOccurrenceAfterMatch(s: string, p: string, v: string, q: string, n: nat)
    requires |p| > 0 && |q| > 0 && |p| <= |s| && s[..|p|] == p
    requires OccursAt(s, q, n)
    requires forall m: nat :: m < n + |q| && n < m + |p| ==> !OccursAt(s, p, m)
    ensures Includes(ReplaceAll(s, p, v), q)
    decreases |s|, 0
  {
    assert OccursAt(s, p, 0);
    var t := s[|p|..];
    OccursInSuffix(s, q, |p|, n - |p|);
    forall m: nat | m < n - |p| + |q| && n - |p| < m + |p|
      ensures !OccursAt(t, p, m)
    {
      OccursInSuffix(s, p, |p|, m);
    }
    ReplaceAllKeepsOccurrence(t, p, v, q, n - |p|);
    var w := ReplaceAll(t, p, v);
    var i: nat :| i <= |w| && OccursAt(w, q, i);
    OccursAfterPrefix(v, w, q, i);
  }

  /** The case of `ReplaceAllKeepsOccurrence` where `q` starts `s` and the
      pattern does not. */
  lemma ReplaceAllKeepsOccurrenceAtStart(s: string, p: string, v: string, q: string)
    requires |p| > 0 && |q| > 0 && |p| <= |s| && s[..|p|] != p
    requires OccursAt(s, q, 0)
    requires forall m: nat :: m < |q| ==> !OccursAt(s, p, m)
    ensures Includes(ReplaceAll(s, p, v), q)
  {
    var t := s[1..];
    forall m: nat | m < |q| - 1
      ensures !OccursAt(t, p, m)
    {
      OccursInSuffix(s, p, 1, m);
    }
    ReplaceAllKeepsPrefix(t, p, v, |q| - 1);
    var w := ReplaceAll(t, p, v);
    assert ([s[0]] + w)[..|q|] == [s[0]] + w[..|q| - 1];
    assert s[..|q|] == [s[0]] + t[..|q| - 1];
    assert OccursAt([s[0]] + w, q, 0);
  }

  /** Text in front that cannot start the pattern is copied unchanged. */
  lemma {:induction false} ReplaceAllSkipsText(t: string, rest: string, p: string, v: string)
    requires |p| > 0 && p[0] !in t
    ensures ReplaceAll(t + rest, p, v) == t + ReplaceAll(rest, p, v)
    decreases |t|
  {
    var s := t + rest;
    if t != [] && |s| >= |p| {
      assert s[..|p|] != p by { assert s[..|p|][0] == t[0]; }
      assert s[1..] == t[1..] + rest;
      ReplaceAllSkipsText(t[1..], rest, p, v);
      assert ReplaceAll(s, p, v) == [t[0]] + ReplaceAll(t[1..] + rest, p, v);
      assert t == [t[0]] + t[1..];
    } else if t != [] {
      assert ReplaceAll(rest, p, v) == rest;
    } else {
      assert s == rest;
    }
  }

  /** Where the pattern does not start the text, its first character is
      copied. */
  lemma ReplaceAllStep(s: string, p: string, v: string)
    requires |p| > 0 && |s| > 0 && !OccursAt(s, p, 0)
    ensures ReplaceAll(s, p, v) == [s[0]] + ReplaceAll(s[1..], p, v)
  {
    if |s| < |p| {
      assert ReplaceAll(s[1..], p, v) == s[1..];
      assert s == [s[0]] + s[1..];
    }
  }

  /** Text whose parts cannot start the pattern, joined by the pattern, has
      every one of those occurrences replaced: the result is the same parts
      joined by the value. */
  lemma {:induction false} ReplaceAllJoin(parts: seq<string>, p: string, v: string)
    requires |p| > 0 && |parts| >= 1
    requires forall i :: 0 <= i < |parts| ==> p[0] !in parts[i]
    ensures ReplaceAll(Join(parts, p), p, v) == Join(parts, v)
    decreases |parts|
  {
    if |parts| == 1 {
      ReplaceAllSkipsText(parts[0], "", p, v);
      assert parts[0] + "" == parts[0];
    } else {
      var rest := Join(parts[1..], p);
      assert Join(parts, p) == parts[0] + (p + rest);
      ReplaceAllSkipsText(parts[0], p + rest, p, v);
      assert (p + rest)[..|p|] == p;
      assert (p + rest)[|p|..] == rest;
      ReplaceAllJoin(parts[1..], p, v);
      assert Join(parts, v) == parts[0] + (v + Join(parts[1..], v));
    }
  }

  /** A text missing a character of `p` does not include `p`. */
  lemma {:induction false} MissingCharNotIncluded(s: string, p: string, k: nat)
    requires k < |p| && p[k] !in s
    ensures !Includes(s, p)
  {
    forall i: nat | i <= |s|
      ensures !OccursAt(s, p, i)
    {
      if i + |p| <= |s| {
        assert s[i..i + |p|][k] == s[i + k];
      }
    }
  }

  // ---------------------------------------------------------------------
  // Decimal rendering of integers
  // ---------------------------------------------------------------------

  predicate IsDigit(c: char)
  {
    '0' <= c <= '9'
  }

  function DigitChar(d: nat): (c: char)
    requires d < 10
    ensures IsDigit(c)
  {
    ('0' as int + d) as char
  }

  /** The value of a string of decimal digits. */
  function DecimalValue(s: string): nat
    requires forall i :: 0 <= i < |s| ==> IsDigit(s[i])
  {
    if s == [] then 0
    else
      assert IsDigit(s[|s| - 1]);
      10 * DecimalValue(s[..|s| - 1]) + (s[|s| - 1] as int - '0' as int) as nat
  }

  /** `String(n)` for a natural number: digits only, no leading zero. */
  function NatToString(n: nat): (r: string)
    ensures |r| >= 1
    ensures forall i :: 0 <= i < |r| ==> IsDigit(r[i])
    ensures r[0] == '0' ==> n == 0
    decreases n
  {
    if n < 10 then [DigitChar(n)] else NatToString(n / 10) + [DigitChar(n % 10)]
  }

  /** Reading back the digits of a natural number gives that number. */
  lemma {:induction false} NatToStringRoundTrip(n: nat)
    ensures DecimalValue(NatToString(n)) == n
    decreases n
  {
    if n >= 10 {
      NatToStringRoundTrip(n / 10);
      var r := NatToString(n);
      assert r[..|r| - 1] == NatToString(n / 10);
    }
  }

  /** `String(n)` for an integer. */
  function IntToString(n: int): string
  {
    if n < 0 then "-" + NatToString(-n) else NatToString(n)
  }
}
