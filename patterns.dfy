/** Hand-written matchers for the regular expressions of the analyser
    (src/lib/server/log-analyzer.ts:2-18). Each `...At(s, p)` tries the pattern
    at offset `p` in the order a backtracking engine does (greedy quantifiers
    try the longest run first, alternatives left to right), `Leftmost` tries the
    offsets from left to right, and the results carry the named capture groups.
    `.` matches any character but a line terminator. */
module Patterns {
  import opened JsRuntime
  import opened Strings

  predicate IsWordChar(c: char) { 'a' <= c <= 'z' || 'A' <= c <= 'Z' || IsDigit(c) || c == '_' }

  predicate IsLowerHex(c: char) { IsDigit(c) || 'a' <= c <= 'f' }

  /** What `.` matches (the regular expressions carry no `s` flag). */
  predicate MatchesDot(c: char) { c != '\n' && c != '\r' && c != '\U{2028}' && c != '\U{2029}' }

  predicate AllChars(t: string, p: char -> bool) {
    forall k :: 0 <= k < |t| ==> p(t[k])
  }

  /** A stretch of characters that all satisfy `p`, taken as a string. */
  lemma RunSlice(s: string, i: nat, j: nat, p: char -> bool)
    requires i <= j <= |s| && forall k :: i <= k < j ==> p(s[k])
    ensures AllChars(s[i..j], p)
  {
  }

  /** End of the longest run of characters satisfying `p` from `i`: what a
      greedy `p+` or `p*` consumes before any backtracking. */
  function RunEnd(s: string, i: nat, p: char -> bool): (e: nat)
    requires i <= |s|
    ensures i <= e <= |s|
    ensures forall k :: i <= k < e ==> p(s[k])
    ensures e < |s| ==> !p(s[e])
    decreases |s| - i
  {
    if i == |s| || !p(s[i]) then i else RunEnd(s, i + 1, p)
  }

  /** The first offset, from `from` onwards, at which `at` matches; every
      earlier offset fails. */
  function Leftmost<M>(s: string, from: nat, at: (string, nat) -> Option<M>): (r: Option<(nat, M)>)
    ensures r.Some? ==> from <= r.value.0 <= |s| && at(s, r.value.0) == Some(r.value.1)
    ensures r.Some? ==> forall q :: from <= q < r.value.0 ==> at(s, q).None?
    ensures r.None? ==> forall q :: from <= q <= |s| ==> at(s, q).None?
    decreases |s| + 1 - from
  {
    if from > |s| then None
    else match at(s, from)
      case Some(m) => Some((from, m))
      case None => Leftmost(s, from + 1, at)
  }

  /** Last offset `k` in `[lo, hi)` with `s[k] == c`, or -1. */
  function LastCharIn(s: string, c: char, lo: nat, hi: nat): (k: int)
    requires hi <= |s|
    ensures k == -1 || (lo <= k < hi && s[k] == c)
    ensures forall j :: lo <= j < hi && k < j ==> s[j] != c
    decreases hi
  {
    if hi <= lo then -1 else if s[hi - 1] == c then hi - 1 else LastCharIn(s, c, lo, hi - 1)
  }

  /** `(?<x>.+)"` from offset `v`: the offset of the closing quote, the last
      quote that a non-empty run of `.` can reach, or -1. */
  function DotsThenQuote(s: string, v: nat): (k: int)
    requires v <= |s|
    ensures k == -1 || (v < k < |s| && s[k] == '"' && AllChars(s[v..k], MatchesDot))
  {
    LastCharIn(s, '"', v + 1, RunEnd(s, v, MatchesDot))
  }

  /** `(: |=)` at offset `e`: where the text after the separator begins. */
  function ColonSpaceOrEquals(s: string, e: nat): (r: Option<nat>)
    ensures r.Some? ==> r.value <= |s| && (PrefixAt(s, e, ": ") || PrefixAt(s, e, "="))
  {
    if PrefixAt(s, e, ": ") then Some(e + 2) else if PrefixAt(s, e, "=") then Some(e + 1) else None
  }

  // ---------------------------------------------------------------------------
  // timeRegex (:10)

  datatype TimeGroups = TimeGroups(year: string, month: string, date: string, hour: string,
                                   minute: string, second: string, millisecond: string)

  predicate WellFormedTime(g: TimeGroups) {
    |g.year| == 4 && |g.month| == 2 && |g.date| == 2 && |g.hour| == 2 && |g.minute| == 2
    && |g.second| == 2 && |g.millisecond| == 3
    && AllChars(g.year, IsDigit) && AllChars(g.month, IsDigit) && AllChars(g.date, IsDigit)
    && AllChars(g.hour, IsDigit) && AllChars(g.minute, IsDigit) && AllChars(g.second, IsDigit)
    && AllChars(g.millisecond, IsDigit)
  }

  /** `\[\d{4}.\d{2}.\d{2}-\d{2}.\d{2}.\d{2}:\d{3}\]` at `p`: 25 characters, the
      unescaped `.` separators matching any character. */
  predicate TimeLayoutAt(s: string, p: nat) {
    p + 25 <= |s| && s[p] == '[' && AllChars(s[p + 1..p + 5], IsDigit) && MatchesDot(s[p + 5])
    && AllChars(s[p + 6..p + 8], IsDigit) && MatchesDot(s[p + 8]) && AllChars(s[p + 9..p + 11], IsDigit)
    && s[p + 11] == '-' && AllChars(s[p + 12..p + 14], IsDigit) && MatchesDot(s[p + 14])
    && AllChars(s[p + 15..p + 17], IsDigit) && MatchesDot(s[p + 17]) && AllChars(s[p + 18..p + 20], IsDigit)
    && s[p + 20] == ':' && AllChars(s[p + 21..p + 24], IsDigit) && s[p + 24] == ']'
  }

  function TimeAt(s: string, p: nat): (r: Option<TimeGroups>)
    ensures r.Some? <==> TimeLayoutAt(s, p)
    ensures r.Some? ==> WellFormedTime(r.value)
  {
    if TimeLayoutAt(s, p) then
      Some(TimeGroups(s[p + 1..p + 5], s[p + 6..p + 8], s[p + 9..p + 11], s[p + 12..p + 14],
                      s[p + 15..p + 17], s[p + 18..p + 20], s[p + 21..p + 24]))
    else None
  }

  /** `line.match(timeRegex)?.groups` */
  function MatchTime(s: string): (r: Option<TimeGroups>)
    ensures r.Some? ==> WellFormedTime(r.value)
    ensures r.None? <==> forall p :: 0 <= p <= |s| ==> !TimeLayoutAt(s, p)
  {
    match Leftmost(s, 0, TimeAt)
    case Some((_, g)) => Some(g)
    case None =>
      assert forall p :: 0 <= p <= |s| ==> !TimeLayoutAt(s, p) by {
        forall p | 0 <= p <= |s| ensures !TimeLayoutAt(s, p) {
          assert TimeAt(s, p).None?;
        }
      }
      None
  }

  // ---------------------------------------------------------------------------
  // fullProfileUpdateRegex (:2)

  datatype ProfileGroups = ProfileGroups(rvn: string, version: string, wipeNumber: string,
                                         displayName: string, accountId: string, profileId: string)

  /** What each capture group can hold: `rvn` and `wipeNumber` are `\d+`,
      `version` and `profileId` are `\w+`, `displayName` is `.+` and `accountId`
      is exactly 32 characters of `[a-f0-9]`. */
  predicate ProfileCaptureClasses(g: ProfileGroups) {
    |g.rvn| >= 1 && AllChars(g.rvn, IsDigit)
    && |g.version| >= 1 && AllChars(g.version, IsWordChar)
    && |g.wipeNumber| >= 1 && AllChars(g.wipeNumber, IsDigit)
    && |g.displayName| >= 1 && AllChars(g.displayName, MatchesDot)
    && |g.accountId| == 32 && AllChars(g.accountId, IsLowerHex)
    && |g.profileId| >= 1 && AllChars(g.profileId, IsWordChar)
  }

  /** `(?<accountId>[a-f0-9]{32}) profileId=(?<profileId>\w+)` at `g`. */
  function IdsAt(s: string, g: nat): (r: Option<(string, string)>)
    ensures r.Some? ==> |r.value.0| == 32 && AllChars(r.value.0, IsLowerHex)
                        && |r.value.1| >= 1 && AllChars(r.value.1, IsWordChar)
  {
    if g + 43 <= |s| && AllChars(s[g..g + 32], IsLowerHex) && PrefixAt(s, g + 32, " profileId=") then
      var z := RunEnd(s, g + 43, IsWordChar);
      if z == g + 43 then None else Some((s[g..g + 32], s[g + 43..z]))
    else None
  }

  /** ` accountId=(MCP:|)` followed by the ids, at `e`: the `MCP:` branch first. */
  function AccountTail(s: string, e: nat): (r: Option<(string, string)>)
    ensures r.Some? ==> |r.value.0| == 32 && AllChars(r.value.0, IsLowerHex)
                        && |r.value.1| >= 1 && AllChars(r.value.1, IsWordChar)
  {
    if !PrefixAt(s, e, " accountId=") then None
    else if PrefixAt(s, e, " accountId=MCP:") && IdsAt(s, e + 15).Some? then IdsAt(s, e + 15)
    else IdsAt(s, e + 11)
  }

  /** Greedy `(?<displayName>.+)` starting at `d` and ending at most at `e`:
      the longest display name after which the account tail matches, or None
      when the tail matches after no non-empty name. */
  function DisplayNameTail(s: string, d: nat, e: nat): (r: Option<(nat, (string, string))>)
    requires d <= e <= |s|
    ensures r.Some? ==> d < r.value.0 <= e && AccountTail(s, r.value.0) == Some(r.value.1)
    ensures r.Some? ==> forall x :: r.value.0 < x <= e ==> AccountTail(s, x).None?
    ensures r.None? ==> forall x :: d < x <= e ==> AccountTail(s, x).None?
    decreases e
  {
    if e == d then None
    else
      var t := AccountTail(s, e);
      if t.Some? then Some((e, t.value))
      else
        var r := DisplayNameTail(s, d, e - 1);
        assert forall x :: (if r.Some? then r.value.0 else d) < x <= e ==> AccountTail(s, x).None? by {
          forall x | (if r.Some? then r.value.0 else d) < x <= e ensures AccountTail(s, x).None? {
            if x == e { assert t == AccountTail(s, x); }
          }
        }
        r
  }

  function ProfileUpdateAt(s: string, p: nat): (r: Option<ProfileGroups>)
    ensures r.Some? ==> ProfileCaptureClasses(r.value)
  {
    if !PrefixAt(s, p, "(rev=") then None else
    var a := p + 5;
    var b := RunEnd(s, a, IsDigit);
    if b == a || !PrefixAt(s, b, ", version=") then None else
    var c := b + 10;
    var d := RunEnd(s, c, IsWordChar);
    if d == c || !PrefixAt(s, d, "@w=") then None else
    var e := d + 3;
    var f := RunEnd(s, e, IsDigit);
    if f == e || !PrefixAt(s, f, ") for ") then None else
    var n := f + 6;
    var end := RunEnd(s, n, MatchesDot);
    match DisplayNameTail(s, n, end)
    case None => None
    case Some((m, ids)) =>
      RunSlice(s, a, b, IsDigit);
      RunSlice(s, c, d, IsWordChar);
      RunSlice(s, e, f, IsDigit);
      RunSlice(s, n, m, MatchesDot);
      Some(ProfileGroups(s[a..b], s[c..d], s[e..f], s[n..m], ids.0, ids.1))
  }

  /** `line.match(fullProfileUpdateRegex)?.groups` */
  function MatchProfileUpdate(s: string): (r: Option<ProfileGroups>)
    ensures r.Some? ==> ProfileCaptureClasses(r.value)
    ensures r.None? <==> forall p :: 0 <= p <= |s| ==> ProfileUpdateAt(s, p).None?
  {
    match Leftmost(s, 0, ProfileUpdateAt)
    case Some((_, g)) => Some(g)
    case None => None
  }

  // ---------------------------------------------------------------------------
  // initMetadataRegex (:5) and csvProfilerMetadataRegex (:8)

  datatype KeyValue = KeyValue(key: string, value: string)

  /** A separator `: ` or `=` at `x` with at least one character of the
      value after it: a place where the key group may end. */
  predicate SeparatorThenValue(s: string, x: nat) {
    match ColonSpaceOrEquals(s, x)
    case Some(v) => v < |s| && MatchesDot(s[v])
    case None => false
  }

  /** `(?<key>.+)(: |=)(?<value>.+)` with the key starting at `k` and ending at
      most at `e`: the longest key that is followed by a separator and at least
      one more character. */
  function InitKeyValue(s: string, k: nat, e: nat): (r: Option<KeyValue>)
    requires k <= |s| && k <= e <= RunEnd(s, k, MatchesDot)
    ensures r.Some? ==> |r.value.key| >= 1 && AllChars(r.value.key, MatchesDot)
                        && |r.value.value| >= 1 && AllChars(r.value.value, MatchesDot)
    decreases e
  {
    if e == k then None
    else
      match ColonSpaceOrEquals(s, e)
      case Some(v) =>
        if v < |s| && MatchesDot(s[v]) then Some(KeyValue(s[k..e], s[v..RunEnd(s, v, MatchesDot)]))
        else InitKeyValue(s, k, e - 1)
      case None => InitKeyValue(s, k, e - 1)
  }

  /** No place after `x`, up to `e`, where the key group may end. */
  predicate NoSeparatorAfter(s: string, x: nat, e: nat) {
    forall y :: x < y <= e ==> !SeparatorThenValue(s, y)
  }

  /** `r` is the longest key starting at `k`: it ends at the last separator,
      up to `e`, that has a value after it, and there is no key when no such
      separator exists. */
  predicate LongestKey(s: string, k: nat, e: nat, r: Option<KeyValue>)
    requires k <= e <= |s|
  {
    match r
    case Some(kv) =>
      var x := k + |kv.key|;
      x <= e && kv.key == s[k..x] && SeparatorThenValue(s, x) && NoSeparatorAfter(s, x, e)
    case None => NoSeparatorAfter(s, k, e)
  }

  /** The key group is greedy. */
  lemma {:induction false} InitKeyValueLongest(s: string, k: nat, e: nat)
    requires k <= |s| && k <= e <= RunEnd(s, k, MatchesDot)
    ensures LongestKey(s, k, e, InitKeyValue(s, k, e))
    decreases e
  {
    if e == k {
    } else if SeparatorThenValue(s, e) {
      LongestKeyAtSeparator(s, k, e);
    } else {
      InitKeyValueLongest(s, k, e - 1);
      LongestKeySkip(s, k, e);
    }
  }

  /** Without a separator with a value at `e`, the longest key up to `e - 1`
      is the longest key up to `e`. */
  lemma LongestKeySkip(s: string, k: nat, e: nat)
    requires k <= |s| && k < e <= RunEnd(s, k, MatchesDot)
    requires !SeparatorThenValue(s, e)
    requires LongestKey(s, k, e - 1, InitKeyValue(s, k, e - 1))
    ensures LongestKey(s, k, e, InitKeyValue(s, k, e))
  {
    var r := InitKeyValue(s, k, e - 1);
    InitKeyValueSkip(s, k, e);
    match r
    case Some(kv) => NoSeparatorExtends(s, k + |kv.key|, e);
    case None => NoSeparatorExtends(s, k, e);
  }

  /** A separator with a value right at `e` ends the key there. */
  lemma LongestKeyAtSeparator(s: string, k: nat, e: nat)
    requires k <= |s| && k < e <= RunEnd(s, k, MatchesDot)
    requires SeparatorThenValue(s, e)
    ensures LongestKey(s, k, e, InitKeyValue(s, k, e))
  {
    var v := ColonSpaceOrEquals(s, e).value;
    var kv := KeyValue(s[k..e], s[v..RunEnd(s, v, MatchesDot)]);
    assert InitKeyValue(s, k, e) == Some(kv);
    assert k + |kv.key| == e;
  }

  lemma InitKeyValueSkip(s: string, k: nat, e: nat)
    requires k <= |s| && k < e <= RunEnd(s, k, MatchesDot)
    requires !SeparatorThenValue(s, e)
    ensures InitKeyValue(s, k, e) == InitKeyValue(s, k, e - 1)
  {
    match ColonSpaceOrEquals(s, e)
    case Some(v) => assert !(v < |s| && MatchesDot(s[v]));
    case None =>
  }

  lemma NoSeparatorExtends(s: string, x: nat, e: nat)
    requires x < e && NoSeparatorAfter(s, x, e - 1) && !SeparatorThenValue(s, e)
    ensures NoSeparatorAfter(s, x, e)
  {
  }

  function InitMetadataAt(s: string, p: nat): (r: Option<KeyValue>)
    ensures r.Some? ==> |r.value.key| >= 1 && AllChars(r.value.key, MatchesDot)
                        && |r.value.value| >= 1 && AllChars(r.value.value, MatchesDot)
  {
    if !PrefixAt(s, p, "LogInit: ") then None
    else InitKeyValue(s, p + 9, RunEnd(s, p + 9, MatchesDot))
  }

  /** `content.match(initMetadataRegex)?.groups` */
  function MatchInitMetadata(s: string): (r: Option<KeyValue>)
    ensures r.Some? ==> |r.value.key| >= 1 && AllChars(r.value.key, MatchesDot)
                        && |r.value.value| >= 1 && AllChars(r.value.value, MatchesDot)
    ensures r.Some? ==> Contains(s, "LogInit: ")
  {
    match Leftmost(s, 0, InitMetadataAt)
    case Some((p, kv)) => ContainsAt(s, "LogInit: ", p); Some(kv)
    case None => None
  }

  /** `(?<key>\w+)="(?<value>.+)"` at `p`. */
  function CsvMetadataAt(s: string, p: nat): (r: Option<KeyValue>)
    ensures r.Some? ==> |r.value.key| >= 1 && AllChars(r.value.key, IsWordChar)
                        && |r.value.value| >= 1 && AllChars(r.value.value, MatchesDot)
  {
    if p >= |s| then None else
    var q := RunEnd(s, p, IsWordChar);
    if q == p || !PrefixAt(s, q, "=\"") then None else
    var k := DotsThenQuote(s, q + 2);
    if k == -1 then None else Some(KeyValue(s[p..q], s[q + 2..k]))
  }

  /** `content.match(csvProfilerMetadataRegex)?.groups` */
  function MatchCsvMetadata(s: string): (r: Option<KeyValue>)
    ensures r.Some? ==> |r.value.key| >= 1 && AllChars(r.value.key, IsWordChar)
                        && |r.value.value| >= 1 && AllChars(r.value.value, MatchesDot)
  {
    match Leftmost(s, 0, CsvMetadataAt)
    case Some((_, kv)) => Some(kv)
    case None => None
  }

  // ---------------------------------------------------------------------------
  // errorRegex (:12), errorStatusCodeRegex (:13) and mmsMessageRegex (:16)

  /** `Raw=(?<response>.+)` at `p`. */
  function RawResponseAt(s: string, p: nat): (r: Option<string>)
    ensures r.Some? ==> |r.value| >= 1 && AllChars(r.value, MatchesDot)
  {
    if PrefixAt(s, p, "Raw=") && p + 4 < |s| && MatchesDot(s[p + 4]) then
      Some(s[p + 4..RunEnd(s, p + 4, MatchesDot)])
    else None
  }

  /** `line.match(errorRegex)?.groups?.response`: everything after the first
      `Raw=` that has something after it, up to the end of the `.` run. */
  function MatchErrorResponse(s: string): (r: Option<string>)
    ensures r.Some? ==> |r.value| >= 1 && AllChars(r.value, MatchesDot)
    ensures r.Some? ==> Contains(s, "Raw=")
  {
    match Leftmost(s, 0, RawResponseAt)
    case Some((p, response)) => ContainsAt(s, "Raw=", p); Some(response)
    case None => None
  }

  /** `(code|Code|HttpResult|Status)` at `p`: where the name ends. */
  function StatusNameEnd(s: string, p: nat): Option<nat> {
    if PrefixAt(s, p, "code") || PrefixAt(s, p, "Code") then Some(p + 4)
    else if PrefixAt(s, p, "HttpResult") then Some(p + 10)
    else if PrefixAt(s, p, "Status") then Some(p + 6)
    else None
  }

  /** `(code|Code|HttpResult|Status)(: |=)(?<statusCode>\d+)` at `p`. */
  function StatusCodeAt(s: string, p: nat): (r: Option<string>)
    ensures r.Some? ==> |r.value| >= 1 && AllChars(r.value, IsDigit)
  {
    match StatusNameEnd(s, p)
    case None => None
    case Some(n) =>
      match ColonSpaceOrEquals(s, n)
      case None => None
      case Some(v) =>
        var z := RunEnd(s, v, IsDigit);
        if z == v then None else Some(s[v..z])
  }

  /** `line.match(errorStatusCodeRegex)?.groups?.statusCode` */
  function MatchStatusCode(s: string): (r: Option<string>)
    ensures r.Some? ==> |r.value| >= 1 && AllChars(r.value, IsDigit)
  {
    match Leftmost(s, 0, StatusCodeAt)
    case Some((_, code)) => Some(code)
    case None => None
  }

  /** `Received message: "(?<message>.+)"` at `p`. */
  function MmsMessageAt(s: string, p: nat): (r: Option<string>)
    ensures r.Some? ==> |r.value| >= 1 && AllChars(r.value, MatchesDot)
  {
    if !PrefixAt(s, p, "Received message: \"") then None else
    var k := DotsThenQuote(s, p + 19);
    if k == -1 then None else Some(s[p + 19..k])
  }

  /** `line.match(mmsMessageRegex)?.groups?.message` */
  function MatchMmsMessage(s: string): (r: Option<string>)
    ensures r.Some? ==> |r.value| >= 1 && AllChars(r.value, MatchesDot)
  {
    match Leftmost(s, 0, MmsMessageAt)
    case Some((_, message)) => Some(message)
    case None => None
  }

  // ---------------------------------------------------------------------------
  // urlRegex (:18), with its `g` and `i` flags

  predicate IsAsciiAlnum(c: char) { 'a' <= c <= 'z' || 'A' <= c <= 'Z' || IsDigit(c) }

  /** `[-a-zA-Z0-9@:%._+~#=]` */
  predicate IsHostChar(c: char) { IsAsciiAlnum(c) || c in "-@:%._+~#=" }

  /** `[a-zA-Z0-9()]` */
  predicate IsTldChar(c: char) { IsAsciiAlnum(c) || c == '(' || c == ')' }

  /** `[-a-zA-Z0-9()@:%_+.~#?!&//=]` */
  predicate IsPathChar(c: char) { IsAsciiAlnum(c) || c in "-()@:%_+.~#?!&/=" }

  /** Any character the URL pattern can consume: the host and path classes,
      which take in the TLD class, the scheme letters and `://`. */
  predicate IsUrlChar(c: char) { IsHostChar(c) || IsPathChar(c) }

  /** Every character of `s[a..b]` is one the URL pattern can consume. */
  predicate UrlCharsIn(s: string, a: nat, b: nat)
    requires a <= b <= |s|
  {
    forall k :: a <= k < b ==> IsUrlChar(s[k])
  }

  /** What a URL match looks like: longer than three characters, made of the
      pattern's characters, with `://` in it. */
  predicate UrlText(u: string) {
    |u| > 3 && AllChars(u, IsUrlChar) && exists q :: 0 <= q <= |u| - 3 && PrefixAt(u, q, "://")
  }

  function AsciiLower(c: char): char {
    if 'A' <= c <= 'Z' then (c as int + 32) as char else c
  }

  /** A literal written in lower case matched under the `i` flag. */
  predicate PrefixAtIgnoringCase(s: string, k: nat, lower: string) {
    k + |lower| <= |s| && forall j :: 0 <= j < |lower| ==> AsciiLower(s[k + j]) == lower[j]
  }

  /** `\b` at offset `x`: word character on exactly one side. */
  predicate WordBoundary(s: string, x: nat)
    requires x <= |s|
  {
    (x > 0 && IsWordChar(s[x - 1])) != (x < |s| && IsWordChar(s[x]))
  }

  function Min(a: int, b: int): int { if a <= b then a else b }

  /** A literal matched under the `i` flag consists of URL characters when
      the literal does: an upper-case letter is one itself. */
  lemma IgnoringCaseUrlChars(s: string, k: nat, lower: string)
    requires PrefixAtIgnoringCase(s, k, lower) && AllChars(lower, IsUrlChar)
    ensures UrlCharsIn(s, k, k + |lower|)
  {
    forall j | k <= j < k + |lower|
      ensures IsUrlChar(s[j])
    {
      assert AsciiLower(s[j]) == lower[j - k];
    }
  }

  lemma SeparatorUrlChars(s: string, k: nat)
    requires PrefixAt(s, k, "://")
    ensures UrlCharsIn(s, k, k + 3)
  {
    assert s[k] == s[k..k + 3][0] == ':';
    assert s[k + 1] == s[k..k + 3][1] == '/';
    assert s[k + 2] == s[k..k + 3][2] == '/';
  }

  /** The literals of the URL pattern consist of URL characters. */
  lemma LiteralUrlChars()
    ensures AllChars("https", IsUrlChar) && AllChars("wss", IsUrlChar) && AllChars("www.", IsUrlChar)
  {
  }

  /** A scheme matched under the `i` flag, then `://`. */
  lemma SchemeUrlChars(s: string, p: nat, scheme: string)
    requires scheme == "https" || scheme == "wss"
    requires PrefixAtIgnoringCase(s, p, scheme) && PrefixAt(s, p + |scheme|, "://")
    ensures UrlCharsIn(s, p, p + |scheme| + 3)
  {
    LiteralUrlChars();
    IgnoringCaseUrlChars(s, p, scheme);
    SeparatorUrlChars(s, p + |scheme|);
  }

  /** `(http(s)|ws(s))?:\/\/` at `p`: where the text after `://` begins. The
      optional group admits only `https` and `wss`; without it the match starts
      at the `://` itself. */
  function SchemeEnd(s: string, p: nat): (r: Option<nat>)
    ensures r.Some? ==> p + 3 <= r.value <= |s| && PrefixAt(s, r.value - 3, "://")
  {
    if PrefixAtIgnoringCase(s, p, "https") && PrefixAt(s, p + 5, "://") then Some(p + 8)
    else if PrefixAtIgnoringCase(s, p, "wss") && PrefixAt(s, p + 3, "://") then Some(p + 6)
    else if PrefixAt(s, p, "://") then Some(p + 3)
    else None
  }

  /** Every character the scheme part consumes is one the URL pattern allows. */
  lemma SchemeEndUrlChars(s: string, p: nat)
    ensures SchemeEnd(s, p).Some? ==> UrlCharsIn(s, p, SchemeEnd(s, p).value)
  {
    if PrefixAtIgnoringCase(s, p, "https") && PrefixAt(s, p + 5, "://") {
      SchemeUrlChars(s, p, "https");
    } else if PrefixAtIgnoringCase(s, p, "wss") && PrefixAt(s, p + 3, "://") {
      SchemeUrlChars(s, p, "wss");
    } else if PrefixAt(s, p, "://") {
      SeparatorUrlChars(s, p);
    }
  }

  /** `[a-zA-Z0-9()]{1,n}\b` followed by the path, trying the longest length
      first: where the whole match ends. */
  function TldTry(s: string, t: nat, n: nat): (r: Option<nat>)
    requires t + n <= |s|
    requires forall k :: t <= k < t + n ==> IsTldChar(s[k])
    ensures r.Some? ==> t < r.value <= |s| && UrlCharsIn(s, t, r.value)
    decreases n
  {
    if n == 0 then None
    else if WordBoundary(s, t + n) then
      TldUrlChars(s, t, t + n);
      Some(RunEnd(s, t + n, IsPathChar))
    else TldTry(s, t, n - 1)
  }

  lemma TldUrlChars(s: string, a: nat, b: nat)
    requires a <= b <= |s|
    requires forall k :: a <= k < b ==> IsTldChar(s[k])
    ensures UrlCharsIn(s, a, b)
  {
    forall k | a <= k < b
      ensures IsUrlChar(s[k])
    {
      assert IsTldChar(s[k]);
      assert s[k] == '(' || s[k] == ')' ==> IsPathChar(s[k]);
    }
  }

  function TldMatch(s: string, t: nat): (r: Option<nat>)
    requires t <= |s|
    ensures r.Some? ==> t < r.value <= |s| && UrlCharsIn(s, t, r.value)
  {
    TldTry(s, t, Min(RunEnd(s, t, IsTldChar) - t, 6))
  }

  /** `[-a-zA-Z0-9@:%._+~#=]{1,n}\.` then the top-level part, trying the
      longest host first. */
  function HostTry(s: string, h: nat, n: nat): (r: Option<nat>)
    requires h + n <= |s|
    requires forall k :: h <= k < h + n ==> IsHostChar(s[k])
    ensures r.Some? ==> h < r.value <= |s| && UrlCharsIn(s, h, r.value)
    decreases n
  {
    if n == 0 then None
    else if h + n < |s| && s[h + n] == '.' && TldMatch(s, h + n + 1).Some? then
      HostUrlChars(s, h, n, TldMatch(s, h + n + 1).value);
      TldMatch(s, h + n + 1)
    else HostTry(s, h, n - 1)
  }

  /** A host run, its `.` and a top-level part that consist of URL characters
      together consist of URL characters. */
  lemma HostUrlChars(s: string, h: nat, n: nat, e: nat)
    requires h + n < e <= |s| && s[h + n] == '.'
    requires forall k :: h <= k < h + n ==> IsHostChar(s[k])
    requires UrlCharsIn(s, h + n + 1, e)
    ensures UrlCharsIn(s, h, e)
  {
    assert IsHostChar('.');
    forall k | h <= k < e
      ensures IsUrlChar(s[k])
    {
      if k < h + n {
        assert IsHostChar(s[k]);
      } else if k > h + n {
        assert IsUrlChar(s[k]);
      }
    }
  }

  function HostMatch(s: string, h: nat): (r: Option<nat>)
    requires h <= |s|
    ensures r.Some? ==> h < r.value <= |s| && UrlCharsIn(s, h, r.value)
  {
    HostTry(s, h, Min(RunEnd(s, h, IsHostChar) - h, 256))
  }

  /** The whole URL pattern at `p`, the optional `www.` tried first: where the
      match ends. */
  function UrlAt(s: string, p: nat): (r: Option<nat>)
    ensures r.Some? ==> p + 3 < r.value <= |s| && UrlCharsIn(s, p, r.value)
    ensures r.Some? ==> exists q :: p <= q <= r.value - 3 && PrefixAt(s, q, "://")
  {
    match SchemeEnd(s, p)
    case None => None
    case Some(a) =>
      SchemeEndUrlChars(s, p);
      assert PrefixAt(s, a - 3, "://");
      if PrefixAtIgnoringCase(s, a, "www.") && HostMatch(s, a + 4).Some? then
        LiteralUrlChars();
        IgnoringCaseUrlChars(s, a, "www.");
        HostMatch(s, a + 4)
      else HostMatch(s, a)
  }

  /** `line.match(urlRegex)` with the `g` flag, from offset `from`: every match,
      in order, each search resuming where the previous match ended. */
  function UrlMatchesFrom(s: string, from: nat): (r: seq<string>)
    ensures forall k :: 0 <= k < |r| ==> UrlText(r[k])
    decreases |s| + 1 - from
  {
    match Leftmost(s, from, UrlAt)
    case None => []
    case Some((p, e)) =>
      UrlTextOfMatch(s, p, e);
      [s[p..e]] + UrlMatchesFrom(s, e)
  }

  /** The text of one match has the shape `UrlText` describes. */
  lemma UrlTextOfMatch(s: string, p: nat, e: nat)
    requires p + 3 < e <= |s| && UrlCharsIn(s, p, e)
    requires exists q :: p <= q <= e - 3 && PrefixAt(s, q, "://")
    ensures UrlText(s[p..e])
  {
    var u := s[p..e];
    var q :| p <= q <= e - 3 && PrefixAt(s, q, "://");
    assert u[q - p..q - p + 3] == s[q..q + 3] by {
      assert forall j :: q - p <= j < q - p + 3 ==> u[j] == s[p + j];
    }
    assert PrefixAt(u, q - p, "://");
    forall k | 0 <= k < |u|
      ensures IsUrlChar(u[k])
    {
      assert u[k] == s[p + k];
    }
  }

  /** `line.match(urlRegex) || []` */
  function UrlMatches(s: string): (r: seq<string>)
    ensures forall k :: 0 <= k < |r| ==> UrlText(r[k])
  {
    UrlMatchesFrom(s, 0)
  }
}
