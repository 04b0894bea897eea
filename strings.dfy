/** The few JavaScript string operations the analyser relies on, over strings
    taken as sequences of characters: `includes`, `startsWith`, `endsWith`,
    `lastIndexOf`, `substring`, `trim`, `split("\n")`, `join('')` and
    `parseInt` (decimal or `0x` hexadecimal, as with no radix). */
module Strings {

  /** WhiteSpace and LineTerminator code points: what `trim` and `parseInt` skip. */
  predicate IsJsWhitespace(c: char) {
    c == '\t' || c == '\n' || c == '\U{000B}' || c == '\U{000C}' || c == '\r' || c == ' '
    || c == '\U{00A0}' || c == '\U{1680}' || ('\U{2000}' <= c <= '\U{200A}')
    || c == '\U{2028}' || c == '\U{2029}' || c == '\U{202F}' || c == '\U{205F}'
    || c == '\U{3000}' || c == '\U{FEFF}'
  }

  predicate IsDigit(c: char) { '0' <= c <= '9' }

  /** `pat` occurs in `s` at offset `k`. */
  predicate PrefixAt(s: string, k: int, pat: string) {
    0 <= k && k + |pat| <= |s| && s[k..k + |pat|] == pat
  }

  predicate StartsWith(s: string, pat: string) { PrefixAt(s, 0, pat) }

  predicate EndsWith(s: string, pat: string) { PrefixAt(s, |s| - |pat|, pat) }

  /** First offset at or after `from` where `pat` occurs, or -1. */
  function IndexOfFrom(s: string, pat: string, from: nat): (r: int)
    ensures r == -1 || (from <= r && PrefixAt(s, r, pat))
    ensures forall k :: from <= k && (r == -1 || k < r) ==> !PrefixAt(s, k, pat)
    decreases |s| + 1 - from
  {
    if from + |pat| > |s| then -1
    else if PrefixAt(s, from, pat) then from
    else IndexOfFrom(s, pat, from + 1)
  }

  /** `s.includes(pat)` */
  predicate Contains(s: string, pat: string) { IndexOfFrom(s, pat, 0) != -1 }

  lemma ContainsAt(s: string, pat: string, k: int)
    requires PrefixAt(s, k, pat)
    ensures Contains(s, pat)
  {
  }

  /** Last offset below `bound` where `pat` occurs, or -1. */
  function LastIndexBelow(s: string, pat: string, bound: nat): (r: int)
    ensures r == -1 || (r < bound && PrefixAt(s, r, pat))
    ensures forall k :: r < k < bound ==> !PrefixAt(s, k, pat)
    decreases bound
  {
    if bound == 0 then -1
    else if PrefixAt(s, bound - 1, pat) then bound - 1
    else LastIndexBelow(s, pat, bound - 1)
  }

  /** `s.lastIndexOf(pat)`: -1 exactly when `pat` does not occur; otherwise the
      offset of its last occurrence. */
  function LastIndexOf(s: string, pat: string): (r: int)
    ensures r == -1 <==> forall k :: !PrefixAt(s, k, pat)
    ensures r != -1 ==> PrefixAt(s, r, pat) && forall k :: r < k ==> !PrefixAt(s, k, pat)
  {
    LastIndexBelow(s, pat, |s| + 1)
  }

  function Clamp(x: int, len: nat): (r: nat)
    ensures r <= len
  {
    if x < 0 then 0 else if x > len then len else x
  }

  /** `s.substring(start, end)`: both ends clamped to the string, swapped when
      the start lies after the end. */
  function Substring(s: string, start: int, end: int): (r: string)
    ensures 0 <= start <= end <= |s| ==> r == s[start..end]
    ensures 0 <= end <= start <= |s| ==> r == s[end..start]
    ensures start <= 0 && 0 <= end <= |s| ==> r == s[..end]
    ensures end <= 0 && 0 <= start <= |s| ==> r == s[..start]
    ensures 0 <= start <= |s| <= end ==> r == s[start..]
    ensures 0 <= end <= |s| <= start ==> r == s[end..]
    ensures (start <= 0 && end <= 0) || (start >= |s| && end >= |s|) ==> r == ""
    ensures (start <= 0 && end >= |s|) || (end <= 0 && start >= |s|) ==> r == s
    ensures |r| <= |s|
  {
    var a := Clamp(start, |s|);
    var b := Clamp(end, |s|);
    if a <= b then s[a..b] else s[b..a]
  }

  /** Index of the first character at or after `i` that is not whitespace. */
  function SkipWhitespace(s: string, i: nat): (k: nat)
    requires i <= |s|
    ensures i <= k <= |s|
    ensures forall j :: i <= j < k ==> IsJsWhitespace(s[j])
    ensures k < |s| ==> !IsJsWhitespace(s[k])
    decreases |s| - i
  {
    if i == |s| || !IsJsWhitespace(s[i]) then i else SkipWhitespace(s, i + 1)
  }

  /** Largest `k`, `lo <= k <= hi`, with everything in `s[k..hi]` whitespace. */
  function TrailingWhitespaceStart(s: string, lo: nat, hi: nat): (k: nat)
    requires lo <= hi <= |s|
    ensures lo <= k <= hi
    ensures forall j :: k <= j < hi ==> IsJsWhitespace(s[j])
    ensures k > lo ==> !IsJsWhitespace(s[k - 1])
    decreases hi
  {
    if hi == lo || !IsJsWhitespace(s[hi - 1]) then hi else TrailingWhitespaceStart(s, lo, hi - 1)
  }

  /** `s.trim()`: the contiguous part of `s` left once the leading and trailing
      whitespace is removed; it neither starts nor ends with whitespace. */
  function Trim(s: string): (r: string)
    ensures TrimStart(s) + |r| <= |s| && r == s[TrimStart(s)..TrimStart(s) + |r|]
    ensures forall j :: 0 <= j < TrimStart(s) ==> IsJsWhitespace(s[j])
    ensures forall j :: TrimStart(s) + |r| <= j < |s| ==> IsJsWhitespace(s[j])
    ensures r != [] ==> !IsJsWhitespace(r[0]) && !IsJsWhitespace(r[|r| - 1])
  {
    var a := TrimStart(s);
    var b := TrailingWhitespaceStart(s, a, |s|);
    assert s[a..b] == s[a..a + |s[a..b]|];
    s[a..b]
  }

  /** Offset of the first character `trim` keeps. */
  function TrimStart(s: string): nat { SkipWhitespace(s, 0) }

  /** When `s` starts with a non-whitespace character, trimming keeps its first
      `n` characters in place as long as the `n`-th is not whitespace either. */
  lemma TrimKeepsPrefix(s: string, n: nat)
    requires 0 < n <= |s|
    requires !IsJsWhitespace(s[0]) && !IsJsWhitespace(s[n - 1])
    ensures n <= |Trim(s)| && Trim(s)[..n] == s[..n]
  {
    var r := Trim(s);
    assert TrimStart(s) == 0;
    assert n <= |r|;
  }

  /** `parts.join(sep)` */
  function JoinWith(parts: seq<string>, sep: char): string
    decreases |parts|
  {
    if |parts| == 0 then ""
    else if |parts| == 1 then parts[0]
    else parts[0] + [sep] + JoinWith(parts[1..], sep)
  }

  /** `s.split("\n")`: the pieces between newlines, in order; never empty, no piece
      contains a newline, and joining them with newlines gives back `s`. */
  function SplitLines(s: string): (parts: seq<string>)
    ensures |parts| >= 1
    ensures forall k :: 0 <= k < |parts| ==> '\n' !in parts[k]
    ensures JoinWith(parts, '\n') == s
    decreases |s|
  {
    var k := IndexOfFrom(s, "\n", 0);
    if k == -1 then
      forall j | 0 <= j < |s| ensures s[j] != '\n' {
        assert !PrefixAt(s, j, "\n");
        assert s[j..j + 1] == [s[j]];
      }
      [s]
    else
      forall j | 0 <= j < k ensures s[j] != '\n' {
        assert !PrefixAt(s, j, "\n");
        assert s[j..j + 1] == [s[j]];
      }
      var rest := SplitLines(s[k + 1..]);
      assert s == s[..k] + "\n" + s[k + 1..];
      [s[..k]] + rest
  }

  /** The other half of the round trip: splitting the newline-join of
      newline-free pieces gives the pieces back. */
  lemma {:induction false} SplitJoinRoundTrip(parts: seq<string>)
    requires |parts| >= 1
    requires forall k :: 0 <= k < |parts| ==> '\n' !in parts[k]
    ensures SplitLines(JoinWith(parts, '\n')) == parts
    decreases |parts|
  {
    var s := JoinWith(parts, '\n');
    var k := IndexOfFrom(s, "\n", 0);
    if |parts| > 1 {
      var tail := JoinWith(parts[1..], '\n');
      var n := |parts[0]|;
      assert s == parts[0] + "\n" + tail;
      assert PrefixAt(s, n, "\n");
      forall j | 0 <= j < n ensures !PrefixAt(s, j, "\n") {
        assert s[j] == parts[0][j];
      }
      assert k == n;
      assert s[..k] == parts[0];
      assert s[k + 1..] == tail;
      SplitJoinRoundTrip(parts[1..]);
      assert SplitLines(s) == [parts[0]] + parts[1..];
    }
  }

  /** `parts.join('')` */
  function Concat(parts: seq<string>): string
    decreases |parts|
  {
    if parts == [] then "" else parts[0] + Concat(parts[1..])
  }

  /** Value of a digit in base 16 (only called on hexadecimal digits). */
  function HexDigitValue(c: char): nat {
    if '0' <= c <= '9' then (c as int) - ('0' as int)
    else if 'a' <= c <= 'f' then (c as int) - ('a' as int) + 10
    else if 'A' <= c <= 'F' then (c as int) - ('A' as int) + 10
    else 0
  }

  predicate IsRadixDigit(c: char, radix: nat) {
    if radix == 16 then IsDigit(c) || 'a' <= c <= 'f' || 'A' <= c <= 'F' else IsDigit(c)
  }

  /** Big-endian value of a digit string in the given radix. */
  function DigitsValue(ds: string, radix: nat): nat
    decreases |ds|
  {
    if ds == [] then 0 else DigitsValue(ds[..|ds| - 1], radix) * radix + HexDigitValue(ds[|ds| - 1])
  }

  function DecimalValue(ds: string): nat { DigitsValue(ds, 10) }

  /** End of the run of radix digits that starts at `i`. */
  function DigitRunEnd(s: string, i: nat, radix: nat): (e: nat)
    requires i <= |s|
    ensures i <= e <= |s|
    ensures forall k :: i <= k < e ==> IsRadixDigit(s[k], radix)
    ensures e < |s| ==> !IsRadixDigit(s[e], radix)
    decreases |s| - i
  {
    if i == |s| || !IsRadixDigit(s[i], radix) then i else DigitRunEnd(s, i + 1, radix)
  }

  /** A JavaScript number as far as `parseInt` can produce one. */
  datatype JsNumber = Num(n: int) | NaN

  /** `parseInt(s)` with no radix: leading whitespace, an optional sign, an
      optional `0x`/`0X` prefix selecting base 16, then the longest run of digits;
      NaN when that run is empty. */
  function ParseInt(s: string): (r: JsNumber)
  {
    var t := s[SkipWhitespace(s, 0)..];
    var sign := if StartsWith(t, "-") then -1 else 1;
    var u := if StartsWith(t, "-") || StartsWith(t, "+") then t[1..] else t;
    var hex := |u| >= 2 && u[0] == '0' && (u[1] == 'x' || u[1] == 'X');
    var radix := if hex then 16 else 10;
    var w := if hex then u[2..] else u;
    var n := DigitRunEnd(w, 0, radix);
    if n == 0 then NaN else Num(sign * DigitsValue(w[..n], radix))
  }

  /** `parseInt` of a non-empty string of decimal digits is its decimal value. */
  lemma ParseIntOfDigits(ds: string)
    requires |ds| >= 1 && forall k :: 0 <= k < |ds| ==> IsDigit(ds[k])
    ensures ParseInt(ds) == Num(DecimalValue(ds))
  {
    assert SkipWhitespace(ds, 0) == 0;
    assert ds[0..] == ds;
    assert DigitRunEnd(ds, 0, 10) == |ds| by {
      DigitRunCovers(ds, 0, 10);
    }
    assert ds[..|ds|] == ds;
  }

  lemma {:induction false} DigitRunCovers(s: string, i: nat, radix: nat)
    requires i <= |s|
    requires forall k :: i <= k < |s| ==> IsRadixDigit(s[k], radix)
    ensures DigitRunEnd(s, i, radix) == |s|
    decreases |s| - i
  {
    if i < |s| {
      DigitRunCovers(s, i + 1, radix);
    }
  }
}
