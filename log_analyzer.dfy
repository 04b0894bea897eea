/** `analyzeLog(file)` (src/lib/server/log-analyzer.ts:131-434): one pass over
    the lines of an engine log that sends each trimmed line to the first
    category whose test it passes, appends the events it can read from it, and
    finally sorts the distinct URLs. The pass is specified line by line by
    `Step` and as a whole by `Run` and `Analyze`; `AnalyzeLog` is the loop
    itself, proved to compute `Analyze`. */
module LogAnalyzer {
  import opened JsRuntime
  import opened Strings
  import opened Patterns
  import opened Timestamps
  import opened Metadata
  import opened Sorting

  // ---------------------------------------------------------------------------
  // The output record (:20-77)

  datatype ProfileUpdate = ProfileUpdate(time: string, accountId: string, displayName: string,
                                         profileId: string, version: string, rvn: JsNumber, wipeNumber: JsNumber)

  /** `statusCode` is None for `null`. */
  datatype ApiResponseError = ApiResponseError(time: string, statusCode: Option<JsNumber>, data: Json)

  datatype MmsError = MmsError(time: string, payload: Json)

  datatype UrlEvent = UrlEvent(time: string, url: string)

  datatype UrlEventData = UrlEventData(events: seq<UrlEvent>, uniqueUrls: seq<string>)

  datatype Events = Events(profileUpdates: seq<ProfileUpdate>, errors: seq<ApiResponseError>,
                           mmsErrors: seq<MmsError>, urls: UrlEventData)

  datatype Output = Output(meta: Meta, events: Events)

  /** The output before the first line (:134-159). */
  const InitialOutput := Output(EmptyMeta, Events([], [], [], UrlEventData([], [])))

  // ---------------------------------------------------------------------------
  // Markers (:1-16)

  const FullProfileUpdate := "LogProfileSys: MCP-Profile: Full profile update"
  const InitMetadataMarker := "LogInit: "
  const CsvProfilerMetadataMarker := "LogCsvProfiler: Display: Metadata set : "
  const MmsMessageMarker := "LogMatchmakingServiceClient: Verbose: HandleWebSocketMessage - Received message: "

  /** A string is truthy in JavaScript unless it is empty. */
  predicate Truthy(s: string) { s != "" }

  // ---------------------------------------------------------------------------
  // Which branch a line takes (:164-428)

  datatype LineKind =
    | ProfileUpdateLine | InitMetadataLine | CsvMetadataLine | SingleLineError
    | MultiLineError | MmsMessageLine | UrlLine | OtherLine

  /** The test that sends a trimmed line to each branch, taken on its own. */
  predicate Marks(kind: LineKind, line: string) {
    match kind
    case ProfileUpdateLine => Contains(line, FullProfileUpdate)
    case InitMetadataLine => Contains(line, InitMetadataMarker)
    case CsvMetadataLine => Contains(line, CsvProfilerMetadataMarker)
    case SingleLineError => Contains(line, " Raw={\"") && EndsWith(line, "\"}")
    case MultiLineError => Contains(line, "\"errorCode\"") && !HasTime(line)
    case MmsMessageLine => Contains(line, MmsMessageMarker)
    case UrlLine => Contains(line, "://")
    case OtherLine => true
  }

  /** The order in which the branches are tried. */
  function Rank(kind: LineKind): nat {
    match kind
    case ProfileUpdateLine => 0
    case InitMetadataLine => 1
    case CsvMetadataLine => 2
    case SingleLineError => 3
    case MultiLineError => 4
    case MmsMessageLine => 5
    case UrlLine => 6
    case OtherLine => 7
  }

  /** The `if ... continue` chain: a line goes to the first branch, in order,
      whose test it passes, and to no other. */
  function Classify(line: string): (kind: LineKind)
    ensures Marks(kind, line)
    ensures forall other :: Rank(other) < Rank(kind) ==> !Marks(other, line)
  {
    if Contains(line, FullProfileUpdate) then ProfileUpdateLine
    else if Contains(line, InitMetadataMarker) then InitMetadataLine
    else if Contains(line, CsvProfilerMetadataMarker) then CsvMetadataLine
    else if Contains(line, " Raw={\"") && EndsWith(line, "\"}") then SingleLineError
    else if Contains(line, "\"errorCode\"") && !HasTime(line) then MultiLineError
    else if Contains(line, MmsMessageMarker) then MmsMessageLine
    else if Contains(line, "://") then UrlLine
    else OtherLine
  }

  // ---------------------------------------------------------------------------
  // tryParseJson (:116-129)

  /** The quotes around a quoted response removed; a string of a single `"`
      stays as it is, since `substring(1, 0)` swaps its bounds. */
  function StripQuotes(s: string): (r: string)
    ensures |s| >= 2 && s[0] == '"' && s[|s| - 1] == '"' ==> r == s[1..|s| - 1]
    ensures !(|s| >= 2 && s[0] == '"' && s[|s| - 1] == '"') ==> r == s
  {
    if StartsWith(s, "\"") && EndsWith(s, "\"") then Substring(s, 1, |s| - 1) else s
  }

  /** `tryParseJson(response)`: the parsed value of the unquoted text, or the
      unquoted text itself as a string when it is not JSON. */
  function TryParseJson(response: string, rt: Runtime): (r: Json)
    ensures rt.jsonParse(StripQuotes(response)).Some? ==> r == rt.jsonParse(StripQuotes(response)).value
    ensures rt.jsonParse(StripQuotes(response)).None? ==> r == JString(StripQuotes(response))
  {
    var data := StripQuotes(response);
    match rt.jsonParse(data)
    case Some(v) => v
    case None => JString(data)
  }

  // ---------------------------------------------------------------------------
  // The branches, one line at a time

  /** `line.substring(24)` for a timestamped line, the line itself otherwise. */
  function Content(line: string): string {
    if HasTime(line) then Substring(line, 24, |line|) else line
  }

  /** The status code of an error line, parsed, or None for `null`. */
  function StatusOf(line: string): Option<JsNumber> {
    match MatchStatusCode(line)
    case Some(code) => if Truthy(code) then Some(ParseInt(code)) else None
    case None => None
  }

  function AddError(out: Output, e: ApiResponseError): Output {
    out.(events := out.events.(errors := out.events.errors + [e]))
  }

  /** The record one profile-update match gives (:175-183). */
  function ProfileRecord(line: string, g: ProfileGroups, rt: Runtime): ProfileUpdate {
    ProfileUpdate(ParseTime(line, rt), g.accountId, g.displayName, g.profileId, g.version,
                  ParseInt(g.rvn), ParseInt(g.wipeNumber))
  }

  /** A full-profile-update line (:165-187). */
  function ProfileUpdateStep(out: Output, line: string, rt: Runtime): Output {
    match MatchProfileUpdate(line)
    case None => out
    case Some(g) =>
      if Truthy(g.rvn) && Truthy(g.version) && Truthy(g.wipeNumber) && Truthy(g.displayName)
         && Truthy(g.accountId) && Truthy(g.profileId)
      then out.(events := out.events.(profileUpdates := out.events.profileUpdates + [ProfileRecord(line, g, rt)]))
      else out
  }

  /** A `LogInit:` line (:190-265). */
  function InitMetadataStep(out: Output, line: string, rt: Runtime): Output {
    match MatchInitMetadata(Content(line))
    case None => out
    case Some(kv) => if Truthy(kv.key) then out.(meta := ApplyInitMetadata(out.meta, kv.key, kv.value, rt)) else out
  }

  /** A CSV profiler metadata line (:268-300). */
  function CsvMetadataStep(out: Output, line: string): Output {
    match MatchCsvMetadata(Content(line))
    case None => out
    case Some(kv) =>
      if Truthy(kv.key) && Truthy(kv.value) then out.(meta := ApplyCsvMetadata(out.meta, kv.key, kv.value)) else out
  }

  /** A single-line error (:303-324): the time comes from the line found by the
      forward walk of `SingleLineTimeLine`, which may throw. */
  function SingleLineErrorStep(out: Output, lines: seq<string>, i: nat, line: string, rt: Runtime): Completion<Output> {
    match MatchErrorResponse(line)
    case None => Normal(out)
    case Some(response) =>
      if !Truthy(response) then Normal(out)
      else
        match SingleLineTimeLine(lines, i, line)
        case Throw => Throw
        case Normal(timeLine) =>
          Normal(AddError(out, ApiResponseError(ParseTime(timeLine, rt), StatusOf(line), TryParseJson(response, rt))))
  }

  /** Where the error data of a multi-line error starts in its first line,
      minus one (:347-363): the `=` of the last `Raw=`, else the last `=`, else
      the last `:`, else -1. */
  function ErrorSplitIndex(first: string): int {
    var raw := LastIndexOf(first, "Raw=");
    var a := if raw != -1 then raw + |"Raw="| - 1 else raw;
    var b := if a == -1 then LastIndexOf(first, "=") else a;
    if b == -1 then LastIndexOf(first, ":") else b
  }

  /** The error data of a multi-line error: the lines from `start` up to but not
      including `end`, joined without separators, from just after the split
      index, trimmed (:371-376). */
  function ErrorData(lines: seq<string>, start: nat, end: nat, split: int): string
    requires start <= end <= |lines|
  {
    var joined := Concat(lines[start..end]);
    Trim(Substring(joined, split + 1, |joined|))
  }

  /** A multi-line error (:327-387): bracketed by the nearest timestamped line
      at or before it and at or after it; either search may throw. */
  function MultiLineErrorStep(out: Output, lines: seq<string>, i: nat, rt: Runtime): Completion<Output> {
    match FindTimestamped(lines, i, true)
    case Throw => Throw
    case Normal(start) =>
      if start == -1 then Normal(out)
      else
        match FindTimestamped(lines, i, false)
        case Throw => Throw
        case Normal(end) =>
          if end == -1 then Normal(out)
          else
            var first := lines[start];
            var split := ErrorSplitIndex(first);
            if split == -1 then Normal(out)
            else
              Normal(AddError(out, ApiResponseError(ParseTime(first, rt), StatusOf(first),
                                                    TryParseJson(ErrorData(lines, start, end, split), rt))))
  }

  /** `typeof parsed === 'object' && parsed?.name === 'Error' && typeof
      parsed?.payload === 'object'`. */
  predicate IsMmsError(v: Json) {
    v.IsObjectType() && v.Property("name") == Some(JString("Error"))
    && v.Property("payload").Some? && v.Property("payload").value.IsObjectType()
  }

  /** A matchmaking-service message (:390-408). */
  function MmsStep(out: Output, line: string, rt: Runtime): Output {
    match MatchMmsMessage(line)
    case None => out
    case Some(message) =>
      if !Truthy(message) then out
      else
        var parsed := TryParseJson(message, rt);
        if IsMmsError(parsed)
        then out.(events := out.events.(mmsErrors := out.events.mmsErrors + [MmsError(ParseTime(line, rt), parsed.Property("payload").value)]))
        else out
  }

  /** A URL with one trailing `.` removed (:415-417). */
  function CleanUrl(url: string): string {
    if EndsWith(url, ".") then Substring(url, 0, LastIndexOf(url, ".")) else url
  }

  /** The body of the `forEach` for one match (:415-426). */
  function AddUrl(d: UrlEventData, url: string, time: string): UrlEventData {
    var cleaned := CleanUrl(url);
    UrlEventData(d.events + [UrlEvent(time, cleaned)],
                 if cleaned in d.uniqueUrls then d.uniqueUrls else d.uniqueUrls + [cleaned])
  }

  /** The `forEach` over the matches, in order. */
  function AddUrls(d: UrlEventData, urls: seq<string>, time: string): UrlEventData
    decreases |urls|
  {
    if urls == [] then d else AddUrls(AddUrl(d, urls[0], time), urls[1..], time)
  }

  /** A line with `://` in it (:411-428). */
  function UrlStep(out: Output, line: string, rt: Runtime): Output {
    out.(events := out.events.(urls := AddUrls(out.events.urls, UrlMatches(line), ParseTime(line, rt))))
  }

  // ---------------------------------------------------------------------------
  // The whole pass

  /** One iteration of the loop, on line `i`. */
  function Step(out: Output, lines: seq<string>, i: nat, rt: Runtime): Completion<Output>
    requires i < |lines|
  {
    var line := Trim(lines[i]);
    match Classify(line)
    case ProfileUpdateLine => Normal(ProfileUpdateStep(out, line, rt))
    case InitMetadataLine => Normal(InitMetadataStep(out, line, rt))
    case CsvMetadataLine => Normal(CsvMetadataStep(out, line))
    case SingleLineError => SingleLineErrorStep(out, lines, i, line, rt)
    case MultiLineError => MultiLineErrorStep(out, lines, i, rt)
    case MmsMessageLine => Normal(MmsStep(out, line, rt))
    case UrlLine => Normal(UrlStep(out, line, rt))
    case OtherLine => Normal(out)
  }

  /** The final `uniqueUrls.sort()` (:431). */
  function Finish(out: Output): Output {
    out.(events := out.events.(urls := out.events.urls.(uniqueUrls := SortStrings(out.events.urls.uniqueUrls))))
  }

  /** The loop as a left fold: apply `step` to lines `i` to `n - 1` in order,
      stop at the first throw, and sort the distinct URLs at the end. */
  function Fold(step: (Output, nat) -> Completion<Output>, n: nat, i: nat, out: Output): Completion<Output>
    requires i <= n
    decreases n - i
  {
    if i == n then Normal(Finish(out))
    else
      match step(out, i)
      case Throw => Throw
      case Normal(next) => Fold(step, n, i + 1, next)
  }

  /** `Step` for the lines of one file. */
  function StepOf(lines: seq<string>, rt: Runtime): (Output, nat) -> Completion<Output> {
    (out: Output, i: nat) => if i < |lines| then Step(out, lines, i, rt) else Normal(out)
  }

  /** The loop from line `i` on, then the sort; a throw ends the pass. */
  function Run(lines: seq<string>, i: nat, out: Output, rt: Runtime): Completion<Output>
    requires i <= |lines|
  {
    Fold(StepOf(lines, rt), |lines|, i, out)
  }

  /** `analyzeLog(file)`: Normal with the output, or Throw. */
  function Analyze(file: string, rt: Runtime): Completion<Output> {
    Run(SplitLines(file), 0, InitialOutput, rt)
  }

  /** The loop of `analyzeLog`, updating its output record in place. */
  method AnalyzeLog(file: string, rt: Runtime) returns (result: Completion<Output>)
    ensures result == Analyze(file, rt)
  {
    var lines := SplitLines(file);
    ghost var step := StepOf(lines, rt);
    var output := InitialOutput;
    for i := 0 to |lines|
      invariant Fold(step, |lines|, i, output) == Analyze(file, rt)
    {
      var next := AnalyzeLine(lines, i, output, rt);
      assert step(output, i) == next;
      if next.Throw? {
        return Throw;
      }
      output := next.value;
    }
    output := output.(events := output.events.(urls := output.events.urls.(uniqueUrls := SortStrings(output.events.urls.uniqueUrls))));
    return Normal(output);
  }

  /** The body of the loop for line `i`; the source's chain of `if ... continue`
      tests is an `else if` chain here. */
  method AnalyzeLine(lines: seq<string>, i: nat, output: Output, rt: Runtime) returns (result: Completion<Output>)
    requires i < |lines|
    ensures result == StepOf(lines, rt)(output, i)
  {
    var line := Trim(lines[i]);
    if Contains(line, FullProfileUpdate) {
      var next := AnalyzeProfileUpdate(line, output, rt);
      result := Normal(next);
    } else if Contains(line, InitMetadataMarker) {
      var next := AnalyzeInitMetadata(line, output, rt);
      result := Normal(next);
    } else if Contains(line, CsvProfilerMetadataMarker) {
      var next := AnalyzeCsvMetadata(line, output);
      result := Normal(next);
    } else if Contains(line, " Raw={\"") && EndsWith(line, "\"}") {
      result := AnalyzeSingleLineError(lines, i, line, output, rt);
    } else if Contains(line, "\"errorCode\"") && !HasTime(line) {
      result := AnalyzeMultiLineError(lines, i, output, rt);
    } else if Contains(line, MmsMessageMarker) {
      var next := AnalyzeMmsMessage(line, output, rt);
      result := Normal(next);
    } else if Contains(line, "://") {
      var urls := CollectUrls(output.events.urls, UrlMatches(line), ParseTime(line, rt));
      result := Normal(output.(events := output.events.(urls := urls)));
    } else {
      result := Normal(output);
    }
    assert result == Step(output, lines, i, rt);
  }

  /** The profile update branch (:165-187). */
  method AnalyzeProfileUpdate(line: string, output: Output, rt: Runtime) returns (next: Output)
    ensures next == ProfileUpdateStep(output, line, rt)
  {
    var groups := MatchProfileUpdate(line);
    if groups.Some? {
      var g := groups.value;
      if Truthy(g.rvn) && Truthy(g.version) && Truthy(g.wipeNumber) && Truthy(g.displayName)
         && Truthy(g.accountId) && Truthy(g.profileId)
      {
        var update := ProfileUpdate(ParseTime(line, rt), g.accountId, g.displayName, g.profileId,
                                    g.version, ParseInt(g.rvn), ParseInt(g.wipeNumber));
        return output.(events := output.events.(profileUpdates := output.events.profileUpdates + [update]));
      }
    }
    return output;
  }

  /** The `LogInit:` branch (:190-265). */
  method AnalyzeInitMetadata(line: string, output: Output, rt: Runtime) returns (next: Output)
    ensures next == InitMetadataStep(output, line, rt)
  {
    var content := if HasTime(line) then Substring(line, 24, |line|) else line;
    var groups := MatchInitMetadata(content);
    if groups.Some? && Truthy(groups.value.key) {
      return output.(meta := ApplyInitMetadata(output.meta, groups.value.key, groups.value.value, rt));
    }
    return output;
  }

  /** The CSV profiler metadata branch (:268-300). */
  method AnalyzeCsvMetadata(line: string, output: Output) returns (next: Output)
    ensures next == CsvMetadataStep(output, line)
  {
    var content := if HasTime(line) then Substring(line, 24, |line|) else line;
    var groups := MatchCsvMetadata(content);
    if groups.Some? && Truthy(groups.value.key) && Truthy(groups.value.value) {
      return output.(meta := ApplyCsvMetadata(output.meta, groups.value.key, groups.value.value));
    }
    return output;
  }

  /** The matchmaking message branch (:390-408). */
  method AnalyzeMmsMessage(line: string, output: Output, rt: Runtime) returns (next: Output)
    ensures next == MmsStep(output, line, rt)
  {
    var message := MatchMmsMessage(line);
    if message.Some? && Truthy(message.value) {
      var parsed := TryParseJson(message.value, rt);
      if IsMmsError(parsed) {
        var e := MmsError(ParseTime(line, rt), parsed.Property("payload").value);
        return output.(events := output.events.(mmsErrors := output.events.mmsErrors + [e]));
      }
    }
    return output;
  }

  /** The single-line error branch (:303-324). */
  method AnalyzeSingleLineError(lines: seq<string>, i: nat, line: string, output: Output, rt: Runtime)
    returns (result: Completion<Output>)
    requires i < |lines|
    ensures result == SingleLineErrorStep(output, lines, i, line, rt)
  {
    var response := MatchErrorResponse(line);
    if response.Some? && Truthy(response.value) {
      var statusCode := MatchStatusCode(line);
      var timeLine := FindSingleLineTimeLine(lines, i, line);
      if timeLine.Throw? {
        return Throw;
      }
      var status := if statusCode.Some? && Truthy(statusCode.value) then Some(ParseInt(statusCode.value)) else None;
      var e := ApiResponseError(ParseTime(timeLine.value, rt), status, TryParseJson(response.value, rt));
      return Normal(output.(events := output.events.(errors := output.events.errors + [e])));
    }
    return Normal(output);
  }

  /** The multi-line error branch (:327-387). */
  method AnalyzeMultiLineError(lines: seq<string>, i: nat, output: Output, rt: Runtime)
    returns (result: Completion<Output>)
    ensures result == MultiLineErrorStep(output, lines, i, rt)
  {
    var startLineIndex := TryFindAbsoluteIndex(lines, i, true);
    if startLineIndex.Throw? {
      return Throw;
    }
    if startLineIndex.value == -1 {
      return Normal(output);
    }
    var endLineIndex := TryFindAbsoluteIndex(lines, i, false);
    if endLineIndex.Throw? {
      return Throw;
    }
    if endLineIndex.value == -1 {
      return Normal(output);
    }
    FindTimestampedWindow(lines, i, true);
    FindTimestampedWindow(lines, i, false);
    var start := startLineIndex.value;
    var end := endLineIndex.value;

    var firstLineErrorStartIndex := FirstLineErrorStartIndex(lines[start]);
    if firstLineErrorStartIndex == -1 {
      return Normal(output);
    }

    var firstLogEntryLine := lines[start];
    var joined := Concat(lines[start..end]);
    var errorData := Trim(Substring(joined, firstLineErrorStartIndex + 1, |joined|));
    var statusCode := MatchStatusCode(firstLogEntryLine);
    var status := if statusCode.Some? && Truthy(statusCode.value) then Some(ParseInt(statusCode.value)) else None;
    var e := ApiResponseError(ParseTime(firstLogEntryLine, rt), status, TryParseJson(errorData, rt));
    return Normal(output.(events := output.events.(errors := output.events.errors + [e])));
  }

  /** The three `lastIndexOf` fallbacks for where the error data starts (:347-363). */
  method FirstLineErrorStartIndex(first: string) returns (index: int)
    ensures index == ErrorSplitIndex(first)
  {
    index := LastIndexOf(first, "Raw=");
    if index != -1 {
      index := index + |"Raw="| - 1;
    }
    if index == -1 {
      index := LastIndexOf(first, "=");
    }
    if index == -1 {
      index := LastIndexOf(first, ":");
    }
  }

  /** The `forEach` over the URL matches of one line (:412-427). */
  method CollectUrls(start: UrlEventData, matches: seq<string>, time: string) returns (urls: UrlEventData)
    ensures urls == AddUrls(start, matches, time)
  {
    urls := start;
    for k := 0 to |matches|
      invariant AddUrls(urls, matches[k..], time) == AddUrls(start, matches, time)
    {
      var url := matches[k];
      var cleanedUrl := if EndsWith(url, ".") then Substring(url, 0, LastIndexOf(url, ".")) else url;
      assert matches[k..] == [url] + matches[k + 1..];
      urls := urls.(events := urls.events + [UrlEvent(time, cleanedUrl)]);
      if cleanedUrl !in urls.uniqueUrls {
        urls := urls.(uniqueUrls := urls.uniqueUrls + [cleanedUrl]);
      }
    }
    assert matches[|matches|..] == [];
  }
}
