/** What the pass of `analyzeLog` guarantees, line by line and as a whole. */
module AnalyzerProperties {
  import opened JsRuntime
  import opened Strings
  import opened Patterns
  import opened Timestamps
  import opened Metadata
  import opened Sorting
  import opened LogAnalyzer

  // ---------------------------------------------------------------------------
  // One line

  /** Each branch touches only its own part of the output, a branch without a
      match leaves everything as it was, and only the two error branches can
      throw. */
  lemma StepFrame(out: Output, lines: seq<string>, i: nat, rt: Runtime)
    requires i < |lines|
    ensures var kind := Classify(Trim(lines[i]));
      && (Step(out, lines, i, rt).Throw? ==> kind == SingleLineError || kind == MultiLineError)
      && (Step(out, lines, i, rt).Normal? ==>
            var next := Step(out, lines, i, rt).value;
            && (kind != InitMetadataLine && kind != CsvMetadataLine ==> next.meta == out.meta)
            && (kind != ProfileUpdateLine ==> next.events.profileUpdates == out.events.profileUpdates)
            && (kind != SingleLineError && kind != MultiLineError ==> next.events.errors == out.events.errors)
            && (kind != MmsMessageLine ==> next.events.mmsErrors == out.events.mmsErrors)
            && (kind != UrlLine ==> next.events.urls == out.events.urls)
            && (kind == OtherLine ==> next == out))
  {
    var line := Trim(lines[i]);
    match Classify(line)
    case SingleLineError =>
    case MultiLineError =>
    case ProfileUpdateLine =>
    case InitMetadataLine =>
    case CsvMetadataLine =>
    case MmsMessageLine =>
    case UrlLine =>
    case OtherLine =>
  }

  /** The output only grows: every event list keeps what it had as a prefix, and
      so does the list of distinct URLs before the final sort. */
  predicate Extends(a: Output, b: Output) {
    && a.events.profileUpdates <= b.events.profileUpdates
    && a.events.errors <= b.events.errors
    && a.events.mmsErrors <= b.events.mmsErrors
    && a.events.urls.events <= b.events.urls.events
    && a.events.urls.uniqueUrls <= b.events.urls.uniqueUrls
  }

  lemma {:induction false} AddUrlsExtends(d: UrlEventData, urls: seq<string>, time: string)
    ensures d.events <= AddUrls(d, urls, time).events
    ensures d.uniqueUrls <= AddUrls(d, urls, time).uniqueUrls
    decreases |urls|
  {
    if urls != [] {
      AddUrlsExtends(AddUrl(d, urls[0], time), urls[1..], time);
    }
  }

  lemma StepExtends(out: Output, lines: seq<string>, i: nat, rt: Runtime)
    requires i < |lines|
    ensures Step(out, lines, i, rt).Normal? ==> Extends(out, Step(out, lines, i, rt).value)
  {
    var line := Trim(lines[i]);
    match Classify(line)
    case UrlLine => UrlStepExtends(out, line, rt);
    case SingleLineError => SingleLineErrorStepExtends(out, lines, i, line, rt);
    case MultiLineError => MultiLineErrorStepExtends(out, lines, i, rt);
    case ProfileUpdateLine => assert Extends(out, ProfileUpdateStep(out, line, rt));
    case InitMetadataLine => assert Extends(out, InitMetadataStep(out, line, rt));
    case CsvMetadataLine => assert Extends(out, CsvMetadataStep(out, line));
    case MmsMessageLine => assert Extends(out, MmsStep(out, line, rt));
    case OtherLine =>
  }

  lemma UrlStepExtends(out: Output, line: string, rt: Runtime)
    ensures Extends(out, UrlStep(out, line, rt))
  {
    AddUrlsExtends(out.events.urls, UrlMatches(line), ParseTime(line, rt));
  }

  lemma SingleLineErrorStepExtends(out: Output, lines: seq<string>, i: nat, line: string, rt: Runtime)
    ensures SingleLineErrorStep(out, lines, i, line, rt).Normal? ==>
              Extends(out, SingleLineErrorStep(out, lines, i, line, rt).value)
  {
  }

  lemma MultiLineErrorStepExtends(out: Output, lines: seq<string>, i: nat, rt: Runtime)
    ensures MultiLineErrorStep(out, lines, i, rt).Normal? ==> Extends(out, MultiLineErrorStep(out, lines, i, rt).value)
  {
  }

  /** A profile-update line appends exactly one record when the pattern
      matches, and nothing otherwise. The record carries the captured groups
      unchanged, its revision and wipe numbers are the decimal values of their
      digit groups, and its time is that of the line. */
  lemma ProfileUpdateLineRecord(out: Output, lines: seq<string>, i: nat, rt: Runtime)
    requires i < |lines| && Classify(Trim(lines[i])) == ProfileUpdateLine
    ensures var line := Trim(lines[i]);
      && (MatchProfileUpdate(line).None? ==> Step(out, lines, i, rt) == Normal(out))
      && (MatchProfileUpdate(line).Some? ==>
            var g := MatchProfileUpdate(line).value;
            var r := ProfileUpdate(ParseTime(line, rt), g.accountId, g.displayName, g.profileId, g.version,
                                   Num(DecimalValue(g.rvn)), Num(DecimalValue(g.wipeNumber)));
            && ProfileCaptureClasses(g)
            && Step(out, lines, i, rt)
               == Normal(out.(events := out.events.(profileUpdates := out.events.profileUpdates + [r]))))
  {
    var line := Trim(lines[i]);
    assert Step(out, lines, i, rt) == Normal(ProfileUpdateStep(out, line, rt));
    ProfileUpdateStepRecord(out, line, rt);
  }

  lemma ProfileUpdateStepRecord(out: Output, line: string, rt: Runtime)
    ensures MatchProfileUpdate(line).None? ==> ProfileUpdateStep(out, line, rt) == out
    ensures MatchProfileUpdate(line).Some? ==>
      var g := MatchProfileUpdate(line).value;
      var r := ProfileUpdate(ParseTime(line, rt), g.accountId, g.displayName, g.profileId, g.version,
                             Num(DecimalValue(g.rvn)), Num(DecimalValue(g.wipeNumber)));
      && ProfileCaptureClasses(g)
      && ProfileUpdateStep(out, line, rt) == out.(events := out.events.(profileUpdates := out.events.profileUpdates + [r]))
  {
    if MatchProfileUpdate(line).Some? {
      var g := MatchProfileUpdate(line).value;
      ParseIntOfDigits(g.rvn);
      ParseIntOfDigits(g.wipeNumber);
    }
  }

  /** A `LogInit:` line applies the key and value of the pattern, read from
      after the timestamp when there is one, to the metadata and to nothing
      else, storing what the switch stores for that key; without a match it
      changes nothing. */
  lemma InitMetadataLineUpdate(out: Output, lines: seq<string>, i: nat, rt: Runtime)
    requires i < |lines| && Classify(Trim(lines[i])) == InitMetadataLine
    ensures var content := Content(Trim(lines[i]));
      && (MatchInitMetadata(content).None? ==> Step(out, lines, i, rt) == Normal(out))
      && (MatchInitMetadata(content).Some? ==>
            var kv := MatchInitMetadata(content).value;
            var meta := ApplyInitMetadata(out.meta, kv.key, kv.value, rt);
            && Step(out, lines, i, rt) == Normal(out.(meta := meta))
            && InitKeyStores(out.meta, meta, kv.key, kv.value, rt))
  {
    var content := Content(Trim(lines[i]));
    if MatchInitMetadata(content).Some? {
      var kv := MatchInitMetadata(content).value;
      InitMetadataValues(out.meta, kv.key, kv.value, rt);
    }
  }

  /** The same for a CSV profiler metadata line. */
  lemma CsvMetadataLineUpdate(out: Output, lines: seq<string>, i: nat, rt: Runtime)
    requires i < |lines| && Classify(Trim(lines[i])) == CsvMetadataLine
    ensures var content := Content(Trim(lines[i]));
      && (MatchCsvMetadata(content).None? ==> Step(out, lines, i, rt) == Normal(out))
      && (MatchCsvMetadata(content).Some? ==>
            var kv := MatchCsvMetadata(content).value;
            Step(out, lines, i, rt) == Normal(out.(meta := ApplyCsvMetadata(out.meta, kv.key, kv.value))))
  {
  }

  /** A single-line error with a `Raw=` response throws exactly when the line
      has no timestamp and no later line has one either. Otherwise it appends
      one error whose time is that of the line itself, or of the first later
      timestamped line; lines before it are never consulted. */
  lemma SingleLineErrorOutcome(out: Output, lines: seq<string>, i: nat, rt: Runtime)
    requires i < |lines| && Classify(Trim(lines[i])) == SingleLineError
    ensures MatchErrorResponse(Trim(lines[i])).Some?
    ensures var line := Trim(lines[i]);
      var response := MatchErrorResponse(line).value;
      && (Step(out, lines, i, rt).Throw? <==>
            !HasTime(line) && forall m :: i < m < |lines| ==> !HasTime(lines[m]))
      && (HasTime(line) ==>
            Step(out, lines, i, rt)
            == Normal(AddError(out, ApiResponseError(ParseTime(line, rt), StatusOf(line), TryParseJson(response, rt)))))
      && (!HasTime(line) && Step(out, lines, i, rt).Normal? ==>
            exists m :: i < m < |lines| && HasTime(lines[m]) && (forall n :: i < n < m ==> !HasTime(lines[n]))
                        && Step(out, lines, i, rt)
                           == Normal(AddError(out, ApiResponseError(ParseTime(lines[m], rt), StatusOf(line),
                                                                    TryParseJson(response, rt)))))
  {
    var line := Trim(lines[i]);
    SingleLineErrorHasResponse(line);
    TimeLineFromSpec(lines, i + 1);
    if !HasTime(line) && TimeLineFrom(lines, i + 1).Normal? {
      var m :| i + 1 <= m < |lines| && TimeLineFrom(lines, i + 1).value == lines[m] && HasTime(lines[m])
               && forall n :: i + 1 <= n < m ==> !HasTime(lines[n]);
      assert i < m;
    }
  }

  /** A line the classifier sends to the single-line error branch always has
      a `Raw=` response: the ` Raw={"` marker itself starts one. */
  lemma SingleLineErrorHasResponse(line: string)
    requires Marks(SingleLineError, line)
    ensures MatchErrorResponse(line).Some?
  {
    var p := IndexOfFrom(line, " Raw={\"", 0);
    assert line[p..p + 7] == " Raw={\"";
    assert line[p + 1] == 'R' && line[p + 2] == 'a' && line[p + 3] == 'w' && line[p + 4] == '=';
    assert line[p + 1..p + 5] == "Raw=";
    assert line[p + 5] == '{';
    assert RawResponseAt(line, p + 1).Some?;
  }

  /** Where the data of a multi-line error starts in its first line: after the
      `=` of the last `Raw=` if there is one, else after the last `=`, else
      after the last `:`; -1 exactly when the line has neither `=` nor `:`. */
  lemma ErrorSplitIndexSpec(first: string)
    ensures var r := ErrorSplitIndex(first);
      && (r == -1 <==> '=' !in first && ':' !in first)
      && (r != -1 ==> 0 <= r < |first| && (first[r] == '=' || first[r] == ':'))
      && (LastIndexOf(first, "Raw=") != -1 ==> PrefixAt(first, r - 3, "Raw=")
                                                && forall k :: r - 3 < k ==> !PrefixAt(first, k, "Raw="))
      && (LastIndexOf(first, "Raw=") == -1 && '=' in first ==>
            first[r] == '=' && forall k :: r < k < |first| ==> first[k] != '=')
      && ('=' !in first && ':' in first ==>
            first[r] == ':' && forall k :: r < k < |first| ==> first[k] != ':')
  {
    var r := ErrorSplitIndex(first);
    SingleCharOccurrence(first, '=');
    SingleCharOccurrence(first, ':');
    var raw := LastIndexOf(first, "Raw=");
    if raw != -1 {
      assert first[raw..raw + 4][3] == '=';
    }
  }

  /** A one-character pattern occurs at `k` exactly when that character is `s[k]`. */
  lemma SingleCharOccurrence(s: string, c: char)
    ensures forall k :: PrefixAt(s, k, [c]) <==> 0 <= k < |s| && s[k] == c
    ensures c in s <==> LastIndexOf(s, [c]) != -1
  {
    forall k | 0 <= k < |s| ensures PrefixAt(s, k, [c]) <==> s[k] == c {
      assert s[k..k + 1] == [s[k]];
    }
    if c in s {
      var k :| 0 <= k < |s| && s[k] == c;
      assert PrefixAt(s, k, [c]);
    }
  }

  /** A multi-line error is bracketed by the nearest timestamped raw line at or
      before it, within nine lines, and the nearest one after it, within nine
      lines; both lie strictly on either side because the line itself has no
      timestamp. When an error is appended, its time and status code come from
      the first line of that span, and its data from the lines of the span up
      to but not including the closing timestamped line. */
  lemma MultiLineErrorSpan(out: Output, lines: seq<string>, i: nat, rt: Runtime)
    requires i < |lines| && Classify(Trim(lines[i])) == MultiLineError
    ensures Step(out, lines, i, rt).Normal? && Step(out, lines, i, rt) != Normal(out) ==>
      var start := FindTimestamped(lines, i, true).value;
      var end := FindTimestamped(lines, i, false).value;
      && i - 9 <= start < i < end <= i + 9 && end < |lines|
      && HasTime(lines[start]) && HasTime(lines[end])
      && (forall m :: start < m < end ==> !HasTime(lines[m]))
      && ErrorSplitIndex(lines[start]) != -1
      && Step(out, lines, i, rt)
         == Normal(AddError(out, ApiResponseError(ParseTime(lines[start], rt), StatusOf(lines[start]),
                                                  TryParseJson(ErrorData(lines, start, end, ErrorSplitIndex(lines[start])), rt))))
  {
    HasTimeOfTrim(lines[i]);
    FindTimestampedWindow(lines, i, true);
    FindTimestampedWindow(lines, i, false);
  }

  /** Conversely, a multi-line error line appends its error whenever both
      searches find a timestamped line and the anchor has a split character. */
  lemma MultiLineErrorAppends(out: Output, lines: seq<string>, i: nat, rt: Runtime)
    requires i < |lines| && Classify(Trim(lines[i])) == MultiLineError
    ensures var s := FindTimestamped(lines, i, true);
      var e := FindTimestamped(lines, i, false);
      s.Normal? && s.value != -1 && e.Normal? && e.value != -1 && ErrorSplitIndex(lines[s.value]) != -1 ==>
        && s.value < i < e.value < |lines|
        && Step(out, lines, i, rt)
           == Normal(AddError(out, ApiResponseError(ParseTime(lines[s.value], rt), StatusOf(lines[s.value]),
                                                    TryParseJson(ErrorData(lines, s.value, e.value,
                                                                           ErrorSplitIndex(lines[s.value])), rt))))
  {
    HasTimeOfTrim(lines[i]);
    FindTimestampedWindow(lines, i, true);
    FindTimestampedWindow(lines, i, false);
  }

  /** The three ways a multi-line error line is consumed without an entry: no
      timestamped line found before it, none found after it, or an anchor line
      with none of `Raw=`, `=` and `:`. */
  lemma MultiLineErrorAborts(out: Output, lines: seq<string>, i: nat, rt: Runtime)
    requires i < |lines| && Classify(Trim(lines[i])) == MultiLineError
    ensures FindTimestamped(lines, i, true) == Normal(-1) ==> Step(out, lines, i, rt) == Normal(out)
    ensures var s := FindTimestamped(lines, i, true);
      s.Normal? && s.value != -1 && FindTimestamped(lines, i, false) == Normal(-1) ==> Step(out, lines, i, rt) == Normal(out)
    ensures var s := FindTimestamped(lines, i, true);
      var e := FindTimestamped(lines, i, false);
      s.Normal? && s.value != -1 && e.Normal? && e.value != -1 && ErrorSplitIndex(lines[s.value]) == -1
      ==> Step(out, lines, i, rt) == Normal(out)
  {
    FindTimestampedWindow(lines, i, true);
  }

  /** A search whose slots up to `n` exist without a timestamp, and whose slot
      `n` lies outside the array, throws. */
  lemma {:induction false} SearchReachesOutside(lines: seq<string>, index: int, searchForStart: bool, j: nat, n: nat)
    requires j <= n < 10
    requires SlotsUntimed(lines, index, searchForStart, j)
    requires forall m :: j <= m < n ==> (0 <= Slot(index, searchForStart, m) < |lines|
                                        && !HasTime(lines[Slot(index, searchForStart, m)]))
    requires !(0 <= Slot(index, searchForStart, n) < |lines|)
    ensures SearchFrom(lines, index, searchForStart, j) == Throw
    decreases n - j
  {
    if j < n {
      SearchReachesOutside(lines, index, searchForStart, j + 1, n);
    }
  }

  /** Near the top of a file, a multi-line error without a timestamped line at
      or above it makes the backward search read `lines[-1]`, and the whole pass
      throws instead of skipping the line. */
  lemma MultiLineErrorThrowsNearStart(out: Output, lines: seq<string>, i: nat, rt: Runtime)
    requires i < |lines| && i <= 8 && Classify(Trim(lines[i])) == MultiLineError
    requires forall m :: 0 <= m <= i ==> !HasTime(lines[m])
    ensures Step(out, lines, i, rt) == Throw
  {
    SearchReachesOutside(lines, i, true, 0, i + 1);
  }

  /** An error line followed by fewer than nine lines, none timestamped, makes
      the forward search read past the end, once a start line was found. */
  lemma MultiLineErrorThrowsNearEnd(out: Output, lines: seq<string>, i: nat, rt: Runtime)
    requires i < |lines| && i + 9 >= |lines| && Classify(Trim(lines[i])) == MultiLineError
    requires FindTimestamped(lines, i, true).Normal? && FindTimestamped(lines, i, true).value != -1
    requires forall m :: i <= m < |lines| ==> !HasTime(lines[m])
    ensures Step(out, lines, i, rt) == Throw
  {
    SearchReachesOutside(lines, i, false, 0, |lines| - i);
  }

  /** What counts as a matchmaking error: a JSON object whose `name` is the
      string `Error` and whose `payload` is an object, an array or `null`. */
  lemma IsMmsErrorMeans(v: Json)
    ensures IsMmsError(v) <==>
      v.JObject? && "name" in v.fields && v.fields["name"] == JString("Error")
      && "payload" in v.fields && (v.fields["payload"].JObject? || v.fields["payload"].JArray? || v.fields["payload"].JNull?)
  {
  }

  /** A matchmaking message line appends one error, with the message's payload
      and the line's time, exactly when its quoted message parses to an error
      object; otherwise it changes nothing. */
  lemma MmsLineOutcome(out: Output, lines: seq<string>, i: nat, rt: Runtime)
    requires i < |lines| && Classify(Trim(lines[i])) == MmsMessageLine
    ensures var line := Trim(lines[i]);
      var message := MatchMmsMessage(line);
      && (message.Some? && IsMmsError(TryParseJson(message.value, rt)) ==>
            Step(out, lines, i, rt)
            == Normal(out.(events := out.events.(mmsErrors := out.events.mmsErrors
                 + [MmsError(ParseTime(line, rt), TryParseJson(message.value, rt).fields["payload"])]))))
      && (!(message.Some? && IsMmsError(TryParseJson(message.value, rt))) ==> Step(out, lines, i, rt) == Normal(out))
  {
  }

  // ---------------------------------------------------------------------------
  // URLs

  /** `CleanUrl` drops exactly one trailing `.` and changes nothing else. */
  lemma CleanUrlSpec(url: string)
    ensures EndsWith(url, ".") ==> CleanUrl(url) == url[..|url| - 1]
    ensures !EndsWith(url, ".") ==> CleanUrl(url) == url
  {
    if EndsWith(url, ".") {
      assert PrefixAt(url, |url| - 1, ".");
      assert LastIndexOf(url, ".") == |url| - 1;
    }
  }

  /** The distinct-URL list holds no duplicates and exactly the URLs of the
      events. */
  predicate UrlsConsistent(d: UrlEventData) {
    NoDuplicates(d.uniqueUrls) && (set u | u in d.uniqueUrls) == (set e | e in d.events :: e.url)
  }

  /** One match keeps the distinct list consistent. */
  lemma AddUrlConsistent(d: UrlEventData, url: string, time: string)
    requires UrlsConsistent(d)
    ensures UrlsConsistent(AddUrl(d, url, time))
  {
    var d1 := AddUrl(d, url, time);
    var c := CleanUrl(url);
    assert d1.events == d.events + [UrlEvent(time, c)];
    if c !in d.uniqueUrls {
      forall a, b | 0 <= a < b < |d1.uniqueUrls| ensures d1.uniqueUrls[a] != d1.uniqueUrls[b] {
        if b == |d.uniqueUrls| {
          assert d1.uniqueUrls[a] in d.uniqueUrls;
        }
      }
    }
    assert (set u | u in d1.uniqueUrls) == (set u | u in d.uniqueUrls) + {c};
    assert (set e | e in d1.events :: e.url) == (set e | e in d.events :: e.url) + {c};
  }

  /** The `forEach` keeps the distinct list consistent. */
  lemma {:induction false} AddUrlsConsistent(d: UrlEventData, urls: seq<string>, time: string)
    requires UrlsConsistent(d)
    ensures UrlsConsistent(AddUrls(d, urls, time))
    decreases |urls|
  {
    if urls != [] {
      AddUrlConsistent(d, urls[0], time);
      AddUrlsConsistent(AddUrl(d, urls[0], time), urls[1..], time);
    }
  }

  /** The `forEach` appends one event per match, in match order, each with the
      cleaned URL and the line's time. */
  lemma {:induction false} AddUrlsEvents(d: UrlEventData, urls: seq<string>, time: string)
    ensures var r := AddUrls(d, urls, time);
      && |r.events| == |d.events| + |urls|
      && r.events[..|d.events|] == d.events
      && (forall k :: 0 <= k < |urls| ==> r.events[|d.events| + k] == UrlEvent(time, CleanUrl(urls[k])))
    decreases |urls|
  {
    if urls != [] {
      var d1 := AddUrl(d, urls[0], time);
      AddUrlsEvents(d1, urls[1..], time);
      var r := AddUrls(d, urls, time);
      assert r == AddUrls(d1, urls[1..], time);
      assert |d1.events| == |d.events| + 1;
      assert r.events[..|d1.events|] == d1.events;
      assert r.events[..|d.events|] == d1.events[..|d.events|];
      forall k | 0 <= k < |urls| ensures r.events[|d.events| + k] == UrlEvent(time, CleanUrl(urls[k])) {
        if k == 0 {
          assert r.events[|d.events|] == d1.events[|d.events|];
        } else {
          assert r.events[|d1.events| + (k - 1)] == UrlEvent(time, CleanUrl(urls[1..][k - 1]));
        }
      }
    }
  }

  lemma StepKeepsUrlsConsistent(out: Output, lines: seq<string>, i: nat, rt: Runtime)
    requires i < |lines| && UrlsConsistent(out.events.urls)
    ensures Step(out, lines, i, rt).Normal? ==> UrlsConsistent(Step(out, lines, i, rt).value.events.urls)
  {
    var line := Trim(lines[i]);
    if Classify(line) == UrlLine {
      AddUrlsConsistent(out.events.urls, UrlMatches(line), ParseTime(line, rt));
    }
  }

  // ---------------------------------------------------------------------------
  // The whole pass

  /** Induction over the fold: a property of the output that every step
      preserves holds of the last output, and so does whatever the final sort
      makes of it. */
  lemma {:induction false} FoldInvariant(step: (Output, nat) -> Completion<Output>, n: nat, i: nat, out: Output,
                                         inv: Output -> bool, post: Output -> bool)
    requires i <= n && inv(out)
    requires forall o, k :: i <= k < n && inv(o) && step(o, k).Normal? ==> inv(step(o, k).value)
    requires forall o :: inv(o) ==> post(Finish(o))
    ensures Fold(step, n, i, out).Normal? ==> post(Fold(step, n, i, out).value)
    decreases n - i
  {
    if i == n {
      assert Fold(step, n, i, out) == Normal(Finish(out));
    } else {
      var c := step(out, i);
      if c.Normal? {
        assert inv(c.value);
        FoldInvariant(step, n, i + 1, c.value, inv, post);
        assert Fold(step, n, i, out) == Fold(step, n, i + 1, c.value);
      }
    }
  }

  /** A fold whose steps never throw completes. */
  lemma {:induction false} FoldCompletes(step: (Output, nat) -> Completion<Output>, n: nat, i: nat, out: Output)
    requires i <= n
    requires forall o, k :: i <= k < n ==> step(o, k).Normal?
    ensures Fold(step, n, i, out).Normal?
    decreases n - i
  {
    if i < n {
      FoldCompletes(step, n, i + 1, step(out, i).value);
    }
  }

  /** What the pass keeps from one line to the next: the event lists extend those
      of `start`, and the distinct URLs are consistent with the URL events. */
  predicate Progress(start: Output, o: Output) {
    Extends(start, o) && UrlsConsistent(o.events.urls)
  }

  /** What a completed pass promises: the event lists of `start` are prefixes of
      the final ones, and the distinct URLs are sorted, without duplicates, and
      exactly the URLs of the URL events. */
  predicate Completed(start: Output, r: Output) {
    && start.events.profileUpdates <= r.events.profileUpdates
    && start.events.errors <= r.events.errors
    && start.events.mmsErrors <= r.events.mmsErrors
    && start.events.urls.events <= r.events.urls.events
    && Sorted(r.events.urls.uniqueUrls)
    && UrlsConsistent(r.events.urls)
  }

  lemma StepProgress(start: Output, o: Output, lines: seq<string>, k: nat, rt: Runtime)
    requires k < |lines| && Progress(start, o) && Step(o, lines, k, rt).Normal?
    ensures Progress(start, Step(o, lines, k, rt).value)
  {
    StepExtends(o, lines, k, rt);
    StepKeepsUrlsConsistent(o, lines, k, rt);
  }

  lemma FinishCompletes(start: Output, o: Output)
    requires Progress(start, o)
    ensures Completed(start, Finish(o))
  {
    SortKeepsValues(o.events.urls.uniqueUrls);
  }

  /** From line `i` on, a pass that completes keeps every event list's earlier
      entries, and its distinct-URL list is sorted, free of duplicates and holds
      exactly the URLs of the URL events. */
  lemma RunOutcome(lines: seq<string>, i: nat, out: Output, rt: Runtime)
    requires i <= |lines| && UrlsConsistent(out.events.urls)
    ensures Run(lines, i, out, rt).Normal? ==> Completed(out, Run(lines, i, out, rt).value)
  {
    var step := StepOf(lines, rt);
    var inv := (o: Output) => Progress(out, o);
    var post := (o: Output) => Completed(out, o);
    forall o, k | i <= k < |lines| && inv(o) && step(o, k).Normal? ensures inv(step(o, k).value) {
      StepProgress(out, o, lines, k, rt);
    }
    forall o | inv(o) ensures post(Finish(o)) {
      FinishCompletes(out, o);
    }
    FoldInvariant(step, |lines|, i, out, inv, post);
  }

  /** The distinct URLs of a completed analysis are sorted, free of duplicates
      and exactly the URLs of its events. */
  lemma AnalyzeUniqueUrls(file: string, rt: Runtime)
    ensures Analyze(file, rt).Normal? ==>
      var d := Analyze(file, rt).value.events.urls;
      && Sorted(d.uniqueUrls) && NoDuplicates(d.uniqueUrls)
      && (set u | u in d.uniqueUrls) == (set e | e in d.events :: e.url)
  {
    RunOutcome(SplitLines(file), 0, InitialOutput, rt);
  }

  /** So they are the only such list: the sorted list of the distinct URLs met. */
  lemma UniqueUrlsDetermined(file: string, rt: Runtime, t: seq<string>)
    requires Analyze(file, rt).Normal?
    requires var d := Analyze(file, rt).value.events.urls;
      Sorted(t) && NoDuplicates(t) && (set u | u in t) == (set e | e in d.events :: e.url)
    ensures t == Analyze(file, rt).value.events.urls.uniqueUrls
  {
    AnalyzeUniqueUrls(file, rt);
    var u := Analyze(file, rt).value.events.urls.uniqueUrls;
    SameSetSameMultiset(t, u);
    SortedPermutationUnique(t, u);
  }

  /** Line `m` goes to neither error branch. */
  predicate NotAnErrorLine(lines: seq<string>, m: nat)
    requires m < |lines|
  {
    var kind := Classify(Trim(lines[m]));
    kind != SingleLineError && kind != MultiLineError
  }

  lemma StepWithoutError(out: Output, lines: seq<string>, i: nat, rt: Runtime)
    requires i < |lines| && NotAnErrorLine(lines, i)
    ensures Step(out, lines, i, rt).Normal?
  {
    StepFrame(out, lines, i, rt);
  }

  /** Only an error line can make the pass throw: a log without single-line or
      multi-line error lines is always analysed. */
  lemma AnalyzeWithoutErrorLines(file: string, rt: Runtime)
    requires forall m :: 0 <= m < |SplitLines(file)| ==> NotAnErrorLine(SplitLines(file), m)
    ensures Analyze(file, rt).Normal?
  {
    var lines := SplitLines(file);
    var step := StepOf(lines, rt);
    forall o, k | 0 <= k < |lines| ensures step(o, k).Normal? {
      StepWithoutError(o, lines, k, rt);
    }
    FoldCompletes(step, |lines|, 0, InitialOutput);
  }

  // ---------------------------------------------------------------------------
  // tryParseJson

  /** Quoting and unquoting: the text between added quotes comes back. */
  lemma StripQuotesOfQuoted(t: string)
    ensures StripQuotes("\"" + t + "\"") == t
  {
    var q := "\"" + t + "\"";
    assert q[1..|q| - 1] == t;
  }

  /** A quoted response is parsed without its quotes, and kept as that text
      when it is not JSON. */
  lemma TryParseJsonOfQuoted(t: string, rt: Runtime)
    ensures rt.jsonParse(t).Some? ==> TryParseJson("\"" + t + "\"", rt) == rt.jsonParse(t).value
    ensures rt.jsonParse(t).None? ==> TryParseJson("\"" + t + "\"", rt) == JString(t)
  {
    StripQuotesOfQuoted(t);
  }
}
