/** String operations of the Java and TypeScript standard libraries that the
    core relies on, over `string` (a sequence of Unicode scalar values). */
module Strings {
  import opened Wrappers

  // ---------------------------------------------------------------------------
  // Java `String.trim`: strips every leading and trailing character whose code
  // is at most U+0020.

  predicate IsJavaSpace(c: char) { c <= ' ' }

  /** No leading or trailing Java whitespace. */
  predicate NoOuterSpace(s: string) {
    s == [] || (!IsJavaSpace(s[0]) && !IsJavaSpace(s[|s| - 1]))
  }

  /** Every character is Java whitespace: `s.trim().isEmpty()`. */
  predicate IsJavaBlank(s: string) {
    forall i :: 0 <= i < |s| ==> IsJavaSpace(s[i])
  }

  /** The end of the run of whitespace that starts at `i`. */
  function SpaceRunEnd(s: string, i: nat): (k: nat)
    requires i <= |s|
    ensures i <= k <= |s|
    ensures forall j :: i <= j < k ==> IsJavaSpace(s[j])
    ensures k == |s| || !IsJavaSpace(s[k])
    decreases |s| - i
  {
    if i == |s| || !IsJavaSpace(s[i]) then i else SpaceRunEnd(s, i + 1)
  }

  /** The start of the run of whitespace that ends just before `n`. */
  function SpaceRunStart(s: string, n: nat): (k: nat)
    requires n <= |s|
    ensures k <= n
    ensures forall j :: k <= j < n ==> IsJavaSpace(s[j])
    ensures k == 0 || !IsJavaSpace(s[k - 1])
  {
    if n == 0 || !IsJavaSpace(s[n - 1]) then n else SpaceRunStart(s, n - 1)
  }

  /** Where the text of `s.trim()` begins in `s`. */
  function TrimFront(s: string): (lo: nat)
    ensures lo <= |s|
    ensures forall j :: 0 <= j < lo ==> IsJavaSpace(s[j])
    ensures lo == |s| || !IsJavaSpace(s[lo])
  {
    SpaceRunEnd(s, 0)
  }

  /** Where the text of `s.trim()` ends in `s`. */
  function TrimBack(s: string): (hi: nat)
    ensures TrimFront(s) <= hi <= |s|
    ensures forall j :: hi <= j < |s| ==> IsJavaSpace(s[j])
    ensures hi == TrimFront(s) || !IsJavaSpace(s[hi - 1])
  {
    if TrimFront(s) == |s| then |s| else SpaceRunStart(s, |s|)
  }

  /** Java `String.trim`: the slice between the leading and the trailing run
      of whitespace. */
  function Trim(s: string): (r: string)
    ensures NoOuterSpace(r)
    ensures NoOuterSpace(s) ==> r == s
    ensures r == [] <==> IsJavaBlank(s)
    ensures |r| <= |s|
  {
    var lo := TrimFront(s);
    var hi := TrimBack(s);
    assert hi == lo ==> IsJavaBlank(s) by {
      if hi == lo {
        assert forall j :: 0 <= j < |s| ==> IsJavaSpace(s[j]);
      }
    }
    assert NoOuterSpace(s) ==> lo == 0 && hi == |s| by {
      if NoOuterSpace(s) && s != [] {
        assert !IsJavaSpace(s[0]);
        assert !IsJavaSpace(s[|s| - 1]);
      }
    }
    s[lo..hi]
  }

  /** `Trim(s)` is exactly the slice between `TrimFront` and `TrimBack`. */
  lemma TrimIsSlice(s: string)
    ensures Trim(s) == s[TrimFront(s)..TrimBack(s)]
  {
  }

  /** Trimming text that starts with a non-space keeps that first character. */
  lemma TrimKeepsFirst(s: string)
    requires s != [] && !IsJavaSpace(s[0])
    ensures TrimFront(s) == 0
    ensures Trim(s) != [] && Trim(s)[0] == s[0]
  {
  }

  /** Trimming a slice of `t` that holds a non-space at `i` gives a slice of
      `t` that still holds position `i`. */
  lemma TrimOfSlice(t: string, lo: int, hi: int, i: int)
    requires 0 <= lo <= i < hi <= |t| && !IsJavaSpace(t[i])
    ensures lo + TrimFront(t[lo..hi]) <= i < lo + TrimBack(t[lo..hi])
    ensures Trim(t[lo..hi]) == t[lo + TrimFront(t[lo..hi])..lo + TrimBack(t[lo..hi])]
  {
    var x := t[lo..hi];
    assert x[i - lo] == t[i];
    SliceOfSlice(t, lo, hi, lo + TrimFront(x), lo + TrimBack(x));
  }

  /** The same when the slice already starts with a non-space: only its end
      moves, and not before position `i`. */
  lemma TrimOfSliceFrom(t: string, lo: int, hi: int, i: int)
    requires 0 <= lo <= i < hi <= |t| && !IsJavaSpace(t[lo]) && !IsJavaSpace(t[i])
    ensures i < lo + TrimBack(t[lo..hi])
    ensures Trim(t[lo..hi]) == t[lo..lo + TrimBack(t[lo..hi])]
  {
    TrimOfSlice(t, lo, hi, lo);
    TrimOfSlice(t, lo, hi, i);
  }

  // ---------------------------------------------------------------------------
  // JavaScript `String.prototype.trim`: strips the ECMAScript WhiteSpace and
  // LineTerminator characters, a different set from Java's.

  predicate IsJsSpace(c: char) {
    c == '\t' || c == '\n' || c == '\U{000B}' || c == '\U{000C}' || c == '\r' || c == ' '
    || c == '\U{00A0}' || c == '\U{1680}' || ('\U{2000}' <= c <= '\U{200A}')
    || c == '\U{2028}' || c == '\U{2029}' || c == '\U{202F}' || c == '\U{205F}'
    || c == '\U{3000}' || c == '\U{FEFF}'
  }

  predicate IsJsBlank(s: string) {
    forall i :: 0 <= i < |s| ==> IsJsSpace(s[i])
  }

  function JsSpaceRunEnd(s: string, i: nat): (k: nat)
    requires i <= |s|
    ensures i <= k <= |s|
    ensures forall j :: i <= j < k ==> IsJsSpace(s[j])
    ensures k == |s| || !IsJsSpace(s[k])
    decreases |s| - i
  {
    if i == |s| || !IsJsSpace(s[i]) then i else JsSpaceRunEnd(s, i + 1)
  }

  function JsSpaceRunStart(s: string, n: nat): (k: nat)
    requires n <= |s|
    ensures k <= n
    ensures forall j :: k <= j < n ==> IsJsSpace(s[j])
    ensures k == 0 || !IsJsSpace(s[k - 1])
  {
    if n == 0 || !IsJsSpace(s[n - 1]) then n else JsSpaceRunStart(s, n - 1)
  }

  /** JavaScript `String.prototype.trim`. */
  function JsTrim(s: string): (r: string)
    ensures r == [] || (!IsJsSpace(r[0]) && !IsJsSpace(r[|r| - 1]))
    ensures r == [] <==> IsJsBlank(s)
    ensures (s == [] || (!IsJsSpace(s[0]) && !IsJsSpace(s[|s| - 1]))) ==> r == s
    ensures |r| <= |s|
  {
    var lo := JsSpaceRunEnd(s, 0);
    var hi := if lo == |s| then |s| else JsSpaceRunStart(s, |s|);
    assert hi == lo ==> IsJsBlank(s) by {
      if hi == lo {
        assert forall j :: 0 <= j < |s| ==> IsJsSpace(s[j]);
      }
    }
    assert (s != [] && !IsJsSpace(s[0]) && !IsJsSpace(s[|s| - 1])) ==> lo == 0 && hi == |s|;
    s[lo..hi]
  }

  // ---------------------------------------------------------------------------
  // JavaScript `String.prototype.length` counts UTF-16 code units: a character
  // above U+FFFF is a surrogate pair and counts twice. Every JavaScript
  // whitespace character lies below U+FFFF, so trimming by characters and
  // trimming by code units remove the same text.

  function Utf16Length(s: string): (n: nat)
    ensures |s| <= n <= 2 * |s|
    ensures (forall i :: 0 <= i < |s| ==> s[i] as int <= 0xFFFF) ==> n == |s|
  {
    if s == [] then 0
    else Utf16Length(s[..|s| - 1]) + (if s[|s| - 1] as int > 0xFFFF then 2 else 1)
  }

  // ---------------------------------------------------------------------------
  // Case mapping. Both runtimes apply full Unicode lower-casing; the model maps
  // the ASCII letters only.

  function LowerChar(c: char): char {
    if 'A' <= c <= 'Z' then (c as int + 32) as char else c
  }

  function ToLower(s: string): (r: string)
    ensures |r| == |s|
    ensures forall i :: 0 <= i < |s| ==> r[i] == LowerChar(s[i])
  {
    seq(|s|, i requires 0 <= i < |s| => LowerChar(s[i]))
  }

  /** Lowercasing twice is lowercasing once. */
  lemma ToLowerIdempotent(s: string)
    ensures ToLower(ToLower(s)) == ToLower(s)
  {
    assert forall i :: 0 <= i < |s| ==> LowerChar(LowerChar(s[i])) == LowerChar(s[i]);
  }

  // ---------------------------------------------------------------------------
  // Searching.

  predicate StartsWith(s: string, p: string) { |p| <= |s| && s[..|p|] == p }

  predicate EndsWith(s: string, p: string) { |p| <= |s| && s[|s| - |p|..] == p }

  /** `p` occurs in `s` at position `i`. */
  predicate OccursAt(s: string, p: string, i: int) {
    0 <= i && i + |p| <= |s| && s[i..i + |p|] == p
  }

  /** The first position of `c` at or after `i`, or -1. */
  function IndexOfCharFrom(s: string, c: char, i: nat): (r: int)
    requires i <= |s|
    ensures r == -1 || i <= r < |s|
    ensures r >= 0 ==> s[r] == c && forall k :: i <= k < r ==> s[k] != c
    ensures r == -1 ==> forall k :: i <= k < |s| ==> s[k] != c
    decreases |s| - i
  {
    if i == |s| then -1 else if s[i] == c then i else IndexOfCharFrom(s, c, i + 1)
  }

  /** Java `indexOf(char)`: the first position of `c`, or -1. */
  function IndexOfChar(s: string, c: char): (r: int)
    ensures -1 <= r < |s|
    ensures r >= 0 ==> s[r] == c && forall k :: 0 <= k < r ==> s[k] != c
    ensures r == -1 <==> c !in s
  {
    IndexOfCharFrom(s, c, 0)
  }

  /** The last position of `c` before `n`, or -1. */
  function LastIndexOfCharBefore(s: string, c: char, n: nat): (r: int)
    requires n <= |s|
    ensures -1 <= r < n
    ensures r >= 0 ==> s[r] == c && forall k :: r < k < n ==> s[k] != c
    ensures r == -1 ==> forall k :: 0 <= k < n ==> s[k] != c
  {
    if n == 0 then -1 else if s[n - 1] == c then n - 1 else LastIndexOfCharBefore(s, c, n - 1)
  }

  /** Java `lastIndexOf(char)`: the last position of `c`, or -1. */
  function LastIndexOfChar(s: string, c: char): (r: int)
    ensures -1 <= r < |s|
    ensures r >= 0 ==> s[r] == c && forall k :: r < k < |s| ==> s[k] != c
    ensures r == -1 <==> c !in s
  {
    LastIndexOfCharBefore(s, c, |s|)
  }

  /** Cutting away text before the first `c` and text after it shifts the
      first position of `c` by the amount cut at the front. */
  lemma IndexOfCharInSlice(s: string, c: char, lo: int, hi: int)
    requires 0 <= lo <= IndexOfChar(s, c) < hi <= |s|
    ensures IndexOfChar(s[lo..hi], c) == IndexOfChar(s, c) - lo
  {
    var x := s[lo..hi];
    var f := IndexOfChar(s, c);
    assert x[f - lo] == c;
    forall k | 0 <= k < f - lo ensures x[k] != c { assert x[k] == s[lo + k]; }
  }

  /** The same for the last position of `c`. */
  lemma LastIndexOfCharInSlice(s: string, c: char, lo: int, hi: int)
    requires 0 <= lo <= LastIndexOfChar(s, c) < hi <= |s|
    ensures LastIndexOfChar(s[lo..hi], c) == LastIndexOfChar(s, c) - lo
  {
    var x := s[lo..hi];
    var l := LastIndexOfChar(s, c);
    assert x[l - lo] == c;
    forall k | l - lo < k < |x| ensures x[k] != c { assert x[k] == s[lo + k]; }
  }

  /** A slice of a slice is a slice of the whole. */
  lemma SliceOfSlice(s: string, lo: int, hi: int, a: int, b: int)
    requires 0 <= lo <= a <= b <= hi <= |s|
    ensures s[lo..hi][a - lo..b - lo] == s[a..b]
  {
    var x := s[lo..hi][a - lo..b - lo];
    assert forall i :: 0 <= i < |x| ==> x[i] == s[a + i];
  }

  /** The first position at or after `i` where `p` occurs, or -1. */
  function IndexOfFrom(s: string, p: string, i: nat): (r: int)
    requires i <= |s|
    ensures r == -1 || i <= r <= |s|
    ensures r >= 0 ==> OccursAt(s, p, r) && forall k :: i <= k < r ==> !OccursAt(s, p, k)
    ensures r == -1 ==> forall k :: i <= k ==> !OccursAt(s, p, k)
    decreases |s| - i
  {
    if i + |p| > |s| then -1
    else if s[i..i + |p|] == p then i
    else IndexOfFrom(s, p, i + 1)
  }

  /** Java `indexOf(String)`: the first position where `p` occurs, or -1. */
  function IndexOf(s: string, p: string): (r: int)
    ensures -1 <= r <= |s|
    ensures r >= 0 ==> OccursAt(s, p, r) && forall k :: 0 <= k < r ==> !OccursAt(s, p, k)
    ensures r == -1 ==> forall k :: !OccursAt(s, p, k)
  {
    IndexOfFrom(s, p, 0)
  }

  /** Java `contains(CharSequence)`. */
  predicate Contains(s: string, p: string) { IndexOf(s, p) != -1 }

  /** A pattern cannot occur in text that lacks its first character. */
  lemma NoOccurrenceWithoutFirst(s: string, p: string)
    requires p != [] && p[0] !in s
    ensures forall k :: !OccursAt(s, p, k)
  {
    forall k ensures !OccursAt(s, p, k) {
      if 0 <= k && k + |p| <= |s| {
        assert s[k..k + |p|][0] == s[k];
      }
    }
  }

  /** Searching for a one-character string is searching for the character. */
  lemma ContainsChar(s: string, c: char)
    ensures Contains(s, [c]) <==> c in s
  {
    if c in s {
      var i := IndexOfChar(s, c);
      assert s[i..i + 1] == [c];
      assert OccursAt(s, [c], i);
    }
    if Contains(s, [c]) {
      var i := IndexOf(s, [c]);
      assert s[i..i + 1][0] == s[i];
    }
  }

  /** A pattern whose first character does not recur inside it cannot overlap
      itself, so if it does not occur in `a` its first occurrence in
      `a + p + t` is the one right after `a`. */
  lemma IndexOfAfter(a: string, p: string, t: string)
    requires p != [] && p[0] !in p[1..]
    requires !Contains(a, p)
    ensures IndexOf(a + p + t, p) == |a|
  {
    var s := a + p + t;
    assert s[|a|..|a| + |p|] == p;
    forall k | 0 <= k < |a| ensures !OccursAt(s, p, k) {
      if k + |p| <= |a| {
        assert s[k..k + |p|] == a[k..k + |p|];
        assert !OccursAt(a, p, k);
      } else {
        var d := |a| - k;
        assert s[|a|] == p[0];
        assert p[d] != p[0] by { assert p[d] == p[1..][d - 1]; }
      }
    }
    assert OccursAt(s, p, |a|);
  }

  // ---------------------------------------------------------------------------
  // Java `String.replace(CharSequence, CharSequence)`: every occurrence of a
  // non-empty target, taken from left to right without overlap, is replaced.

  /** The replacement of the text from position `i` on. */
  function ReplaceFrom(s: string, target: string, repl: string, i: nat): (r: string)
    requires target != [] && i <= |s|
    ensures (forall k :: i <= k ==> !OccursAt(s, target, k)) ==> r == s[i..]
    decreases |s| - i
  {
    if i + |target| > |s| then s[i..]
    else if OccursAt(s, target, i) then repl + ReplaceFrom(s, target, repl, i + |target|)
    else
      var rest := ReplaceFrom(s, target, repl, i + 1);
      assert (forall k :: i <= k ==> !OccursAt(s, target, k)) ==> [s[i]] + rest == s[i..] by {
        if forall k :: i <= k ==> !OccursAt(s, target, k) {
          assert rest == s[i + 1..];
          assert [s[i]] + s[i + 1..] == s[i..];
        }
      }
      [s[i]] + rest
  }

  function Replace(s: string, target: string, repl: string): (r: string)
    requires target != []
    ensures (forall k :: !OccursAt(s, target, k)) ==> r == s
  {
    assert s[0..] == s;
    ReplaceFrom(s, target, repl, 0)
  }

  /** Replacement keeps the first character when no occurrence starts there. */
  lemma ReplaceKeepsFirst(s: string, target: string, repl: string)
    requires target != [] && s != [] && s[0] != target[0]
    ensures Replace(s, target, repl) != [] && Replace(s, target, repl)[0] == s[0]
  {
  }

  /** `r` is not empty and ends with `c`. */
  predicate LastIs(r: string, c: char) { r != [] && r[|r| - 1] == c }

  lemma LastOfAppend(a: string, b: string, c: char)
    requires LastIs(b, c)
    ensures LastIs(a + b, c)
  {
    assert (a + b)[|a + b| - 1] == b[|b| - 1];
  }

  /** Replacement keeps the last character when it cannot end an occurrence. */
  lemma {:induction false} ReplaceFromKeepsLast(s: string, target: string, repl: string, i: nat)
    requires target != [] && i < |s| && s[|s| - 1] != target[|target| - 1]
    ensures LastIs(ReplaceFrom(s, target, repl, i), s[|s| - 1])
    decreases |s| - i
  {
    var c := s[|s| - 1];
    if i + |target| > |s| {
      var r := s[i..];
      assert r[|r| - 1] == c;
    } else if OccursAt(s, target, i) {
      assert s[i..i + |target|][|target| - 1] == s[i + |target| - 1];
      var rest := ReplaceFrom(s, target, repl, i + |target|);
      ReplaceFromKeepsLast(s, target, repl, i + |target|);
      LastOfAppend(repl, rest, c);
    } else if i + 1 < |s| {
      var rest := ReplaceFrom(s, target, repl, i + 1);
      ReplaceFromKeepsLast(s, target, repl, i + 1);
      LastOfAppend([s[i]], rest, c);
    } else {
      var rest := ReplaceFrom(s, target, repl, i + 1);
      assert rest == [];
      assert ReplaceFrom(s, target, repl, i) == [s[i]] + rest;
    }
  }

  lemma ReplaceKeepsLast(s: string, target: string, repl: string)
    requires target != [] && s != [] && s[|s| - 1] != target[|target| - 1]
    ensures LastIs(Replace(s, target, repl), s[|s| - 1])
  {
    ReplaceFromKeepsLast(s, target, repl, 0);
  }

  /** A prefix of a prefix is a prefix. */
  lemma StartsWithTrans(s: string, t: string, p: string)
    requires StartsWith(s, t) && StartsWith(t, p)
    ensures StartsWith(s, p)
  {
    assert s[..|p|] == s[..|t|][..|p|];
  }

  /** A suffix of a suffix is a suffix. */
  lemma EndsWithTrans(s: string, t: string, p: string)
    requires EndsWith(s, t) && EndsWith(t, p)
    ensures EndsWith(s, p)
  {
    assert s[|s| - |p|..] == s[|s| - |t|..][|t| - |p|..];
  }

  // ---------------------------------------------------------------------------
  // Java string concatenation renders a null reference as "null".

  function ValueOf(s: Option<string>): (r: string)
    ensures s.Some? ==> r == s.value
    ensures s.None? ==> r == "null"
  {
    match s
    case Some(v) => v
    case None => "null"
  }

  // ---------------------------------------------------------------------------
  // JavaScript renders a non-negative integer in base ten.

  function DigitChar(d: nat): char
    requires d < 10
  {
    "0123456789"[d]
  }

  function NatToDecimal(n: nat): (r: string)
    ensures r != []
    ensures forall i :: 0 <= i < |r| ==> '0' <= r[i] <= '9'
  {
    if n < 10 then [DigitChar(n)] else NatToDecimal(n / 10) + [DigitChar(n % 10)]
  }

  /** Reads a string of decimal digits back as a number. */
  function DecimalValue(s: string): nat
    requires forall i :: 0 <= i < |s| ==> '0' <= s[i] <= '9'
  {
    if s == [] then 0
    else DecimalValue(s[..|s| - 1]) * 10 + (s[|s| - 1] as int - '0' as int)
  }

  /** Rendering a size in base ten loses nothing: reading it back gives the
      number again, and it has no leading zero. */
  lemma {:induction false} NatToDecimalRoundTrip(n: nat)
    ensures DecimalValue(NatToDecimal(n)) == n
    ensures NatToDecimal(n)[0] == '0' ==> n == 0
  {
    if n >= 10 {
      NatToDecimalRoundTrip(n / 10);
      var r := NatToDecimal(n);
      assert r[..|r| - 1] == NatToDecimal(n / 10);
      assert r[0] == NatToDecimal(n / 10)[0];
    }
  }
}
