# fn-logs log analyser, modelled in Dafny

fn-logs reads a Fortnite / Unreal Engine client log and summarises it. The
core is `analyzeLog` in `src/lib/server/log-analyzer.ts`. It makes one pass
over the log and returns an `AnalyzedLogOutput`:

- **Pass structure.** The log is split on `\n` and each line is trimmed.
- **Classification.** An ordered chain of marker tests sends each line to
  exactly one branch. The first marker that matches wins, and `continue` skips
  the rest of the chain.
- **Branches.** The branches fill in:
  - the build metadata, from `LogInit:` and CSV-profiler lines;
  - the profile-update events;
  - the backend error events, from single-line `Raw={…}` errors and from
    multi-line `"errorCode"` errors;
  - the matchmaking-service (MMS) error events;
  - the URL events, with their list of unique URLs.
- **End of pass.** The unique URLs are sorted.

The model is split by the program's structure:

| file | module | what it holds |
|---|---|---|
| `strings.dfy` | `Strings` | the JavaScript string operations the analyser calls: `split`, `trim`, `substring`, `lastIndexOf`, `includes`, `startsWith`, `endsWith`, `parseInt` |
| `js_runtime.dfy` | `JsRuntime` | JSON values, completions (a value, or an exception), and the two runtime services the analyser relies on, passed in as a parameter: `JSON.parse` and the `Date` to ISO-string conversion |
| `patterns.dfy` | `Patterns` | one hand-written matcher per regular expression at `:2`-`:18`. Each returns what the backtracking regex engine captures: the leftmost match, greedy quantifiers, alternatives tried left to right |
| `timestamps.dfy` | `Timestamps` | `hasTime`, `parseTime`, `tryFindAbsoluteIndex` (a method with its loop, proved against a function), and the single-line error's timestamp loop |
| `metadata.dfy` | `Metadata` | the metadata record, the `LogInit:` key/alias dispatch and the CSV-profiler dispatch, with frame and last-write-wins lemmas |
| `sorting.dfy` | `Sorting` | `Array.prototype.sort()` on strings |
| `log_analyzer.dfy` | `LogAnalyzer` | the output types, line classification, `tryParseJson`, and one function per branch (the step a line makes). It also has the whole pass as a fold, and `AnalyzeLog`, the imperative loop, proved equal to that fold |
| `properties.dfy` | `AnalyzerProperties` | what each branch adds and leaves alone, the URL invariants, and the whole-pass results |

How `analyzeLog` is specified:

- The per-line loop of `analyzeLog` (`:161-429`) is the method
  `LogAnalyzer.AnalyzeLog`. It dispatches each line through `AnalyzeLine` to
  one method per branch.
- Each method is proved equal to a specification function: `Step` for one
  line, and `Analyze` for the whole file.
- The properties of those functions are then proved as lemmas.

JavaScript exceptions are modelled. An out-of-range `lines[k]` is `undefined`,
and `hasTime(undefined)` then throws a `TypeError`, so analysis can end with
an exception instead of an output. The multi-line start search (`index - j`)
can read below the first line, and the end search (`index + j`) past the last
one. The single-line error's timestamp loop
(`:312-314`) uses a pre-decrement, so its offset goes -1, -2, …: it walks
forward through the lines after the error, its `< 10` bound never stops it,
and it throws when it runs off the end. Nothing in `analyzeLog` catches these
exceptions, so the model follows the code and lets them end the pass.
`AnalyzeLog` returns `Throw` in exactly those cases.

Some regular-expression behaviour is reproduced as written, because the code
behaves that way:

- The URL pattern's optional group `(http(s)|ws(s))?` accepts only `https` and
  `wss`. For `http://host.com`, the match therefore starts at `://`.
- The `LogInit:` key group `.+` is greedy. The key therefore runs up to the
  last `: ` or `=` that still leaves a non-empty value after it.

## Model

| member | source | states |
|---|---|---|
| Strings.SplitLines | src/lib/server/log-analyzer.ts:132 | `file.split("\n")`: at least one part, no part contains `\n`, and joining the parts with `\n` gives the file back |
| Strings.SplitJoinRoundTrip | src/lib/server/log-analyzer.ts:132 | the other round trip: splitting the `\n`-join of `\n`-free parts gives the same parts |
| Strings.Trim | src/lib/server/log-analyzer.ts:162 | `trim()` gives the slice of the input left after dropping the leading and trailing JavaScript whitespace runs; the result neither starts nor ends with whitespace |
| Strings.TrimKeepsPrefix | src/lib/server/log-analyzer.ts:162 | trimming a line whose first and n-th characters are not whitespace keeps its first n characters in place |
| Strings.Substring | src/lib/server/log-analyzer.ts:99 | `substring(start, end)` is the slice between the two arguments, swapped when start > end, with a negative argument read as 0 and one past the end read as the length: every placement of the two arguments below, inside and past the string is stated |
| Strings.IndexOfFrom | src/lib/server/log-analyzer.ts:165 | the first occurrence of a pattern at or after an offset, or -1 when there is none (the basis of `includes`) |
| Strings.ContainsAt | src/lib/server/log-analyzer.ts:165 | an occurrence anywhere makes `includes` true |
| Strings.LastIndexBelow | src/lib/server/log-analyzer.ts:347 | the last occurrence below a bound, or -1 when there is none |
| Strings.LastIndexOf | src/lib/server/log-analyzer.ts:347 | `lastIndexOf` is -1 exactly when the pattern occurs nowhere; otherwise it is an occurrence with none after it |
| Strings.SkipWhitespace | src/lib/server/log-analyzer.ts:162 | the leading whitespace run of a string ends at the first non-whitespace character |
| Strings.TrailingWhitespaceStart | src/lib/server/log-analyzer.ts:162 | the trailing whitespace run starts just after the last non-whitespace character |
| Strings.ParseIntOfDigits | src/lib/server/log-analyzer.ts:181-182 | `parseInt` of a non-empty run of decimal digits is its decimal value, never NaN |
| Strings.DigitRunCovers | src/lib/server/log-analyzer.ts:181-182 | a digit run reaching the end of the string is read in full |
| Strings.DigitRunEnd | src/lib/server/log-analyzer.ts:227 | `parseInt` reads the longest run of digits of the radix and stops at the first non-digit |
| Strings.ParseInt | src/lib/server/log-analyzer.ts:181-182 | `parseInt` as called at `:181-182`, `:227`, `:318` and `:382`. No contract of its own; `ParseIntOfDigits` states its value on a decimal digit string, and `DigitRunEnd` the digit run it reads |
| Patterns.TimeAt | src/lib/server/log-analyzer.ts:10 | the time pattern matches at an offset exactly when the 25-character layout is there, with every group of the right width and all digits |
| Patterns.MatchTime | src/lib/server/log-analyzer.ts:10 | `line.match(timeRegex)` fails exactly when the layout occurs at no offset; a match has well-formed groups |
| Patterns.IdsAt | src/lib/server/log-analyzer.ts:2 | an `accountId` capture is 32 characters of `[a-f0-9]` |
| Patterns.AccountTail | src/lib/server/log-analyzer.ts:2 | after ` accountId=` with an optional `MCP:`, the captured id holds 32 lower-case hex characters and so never includes the `MCP:` prefix |
| Patterns.DisplayNameTail | src/lib/server/log-analyzer.ts:2 | the greedy `displayName` ends at the last position where the account tail matches, so every longer name fails; None means the tail matches after no non-empty name |
| Patterns.ProfileUpdateAt | src/lib/server/log-analyzer.ts:2 | a profile-update match at an offset carries groups of the pattern's character classes (`\d+`, `\w+`, `.+`, `[a-f0-9]{32}`) |
| Patterns.MatchProfileUpdate | src/lib/server/log-analyzer.ts:2 | the match fails exactly when no offset matches; a match has groups of the right character classes |
| Patterns.InitKeyValue | src/lib/server/log-analyzer.ts:5 | a `LogInit:` key and value are non-empty and contain no line terminator |
| Patterns.InitKeyValueLongest | src/lib/server/log-analyzer.ts:5 | the greedy key ends at the last `: ` or `=` that still has a value character after it, and there is no match when no separator has one |
| Patterns.LongestKeyAtSeparator | src/lib/server/log-analyzer.ts:5 | a separator with a value at the end of the key range ends the key there |
| Patterns.InitKeyValueSkip | src/lib/server/log-analyzer.ts:5 | without such a separator at the end of the range, the key search moves one character back |
| Patterns.LongestKeySkip | src/lib/server/log-analyzer.ts:5 | in that case the longest key of the shorter range is the longest key of the whole range |
| Patterns.NoSeparatorExtends | src/lib/server/log-analyzer.ts:5 | a separator-free stretch stays separator-free when extended by one non-separator position |
| Patterns.InitMetadataAt | src/lib/server/log-analyzer.ts:5 | a `LogInit:` match starting at a given offset has a non-empty key and value without line terminators |
| Patterns.MatchInitMetadata | src/lib/server/log-analyzer.ts:5 | a match implies that the text contains `LogInit: `, and its key and value are non-empty |
| Patterns.CsvMetadataAt | src/lib/server/log-analyzer.ts:8 | a CSV-profiler key is a non-empty `\w+` run, and its value is non-empty |
| Patterns.MatchCsvMetadata | src/lib/server/log-analyzer.ts:8 | the same, for the leftmost match |
| Patterns.RawResponseAt | src/lib/server/log-analyzer.ts:12 | a `Raw=` response is non-empty |
| Patterns.MatchErrorResponse | src/lib/server/log-analyzer.ts:12 | a response match implies the line contains `Raw=`, and the response is non-empty |
| Patterns.StatusCodeAt | src/lib/server/log-analyzer.ts:13 | a status code capture is a non-empty run of digits |
| Patterns.MatchStatusCode | src/lib/server/log-analyzer.ts:13 | the same, for the leftmost match |
| Patterns.MmsMessageAt | src/lib/server/log-analyzer.ts:16 | an MMS message capture is non-empty |
| Patterns.MatchMmsMessage | src/lib/server/log-analyzer.ts:16 | the same, for the leftmost match |
| Patterns.SchemeEnd | src/lib/server/log-analyzer.ts:18 | the URL scheme part always ends in `://` |
| Patterns.SchemeEndUrlChars | src/lib/server/log-analyzer.ts:18 | every character the scheme part consumes is one the URL pattern allows |
| Patterns.LiteralUrlChars | src/lib/server/log-analyzer.ts:18 | the literals `https`, `wss` and `www.` consist of URL characters |
| Patterns.SchemeUrlChars | src/lib/server/log-analyzer.ts:18 | `https` or `wss` matched under the `i` flag, followed by `://`, consists of URL characters |
| Patterns.TldTry | src/lib/server/log-analyzer.ts:18 | given `n` characters of the `[a-zA-Z0-9()]` class, a top-level-part match consumes at least one character, all of them URL characters |
| Patterns.TldMatch | src/lib/server/log-analyzer.ts:18 | the same, from an offset; the `{1,6}` bound on the top-level part is applied in the body and is not part of the contract |
| Patterns.HostTry | src/lib/server/log-analyzer.ts:18 | given `n` characters of the host class, a host match consumes at least one character, all of them URL characters |
| Patterns.HostUrlChars | src/lib/server/log-analyzer.ts:18 | a host run, its `.` and a top-level part of URL characters together consist of URL characters |
| Patterns.HostMatch | src/lib/server/log-analyzer.ts:18 | the same, from an offset; the `{1,256}` bound on the host is applied in the body and is not part of the contract |
| Patterns.IgnoringCaseUrlChars | src/lib/server/log-analyzer.ts:18 | a literal matched under the `i` flag consists of URL characters when the literal does |
| Patterns.SeparatorUrlChars | src/lib/server/log-analyzer.ts:18 | the `://` separator consists of URL characters |
| Patterns.TldUrlChars | src/lib/server/log-analyzer.ts:18 | characters of the `[a-zA-Z0-9()]` class are URL characters |
| Patterns.UrlAt | src/lib/server/log-analyzer.ts:18 | a URL match is more than three characters long, consists of characters of the pattern's classes, and contains `://` |
| Patterns.UrlTextOfMatch | src/lib/server/log-analyzer.ts:18 | the text of such a match, taken on its own, has that shape |
| Patterns.UrlMatchesFrom | src/lib/server/log-analyzer.ts:18 | every match of the global search has that shape: more than three characters of the pattern's classes, with `://` in it |
| Patterns.UrlMatches | src/lib/server/log-analyzer.ts:412 | `line.match(urlRegex) \|\| []`: every URL found has that shape |
| Timestamps.HasTime | src/lib/server/log-analyzer.ts:79-87 | no contract of its own: eight positional character tests, false on a line shorter than 25 characters. Its properties are stated by `HasTimeOfTrim`, `ParseTimeOfTimestampedLine` and the searches below |
| Timestamps.ParseTime | src/lib/server/log-analyzer.ts:89-100 | no contract of its own. `ParseTimeFallback` states the `substring(1, 24)` fallback and `ParseTimeOfTimestampedLine` the conversion of a matched timestamp |
| Timestamps.HasTimeOfTrim | src/lib/server/log-analyzer.ts:79-87 | a line that passes `hasTime` still passes it after `trim()` |
| Timestamps.ParseTimeFallback | src/lib/server/log-analyzer.ts:89-100 | when the time pattern does not match, `parseTime` is `line.substring(1, 24)`: characters 1 to 23, fewer on a short line, and empty on a line of at most one character |
| Timestamps.ParseTimeOfTimestampedLine | src/lib/server/log-analyzer.ts:89-100 | on a line that starts with a well-formed timestamp, `parseTime` is the ISO conversion of the date text built from its groups |
| Timestamps.SearchFrom | src/lib/server/log-analyzer.ts:102-114 | the search from slot j returns the first timestamped slot, -1 when all ten slots are in range and untimed, or throws at the first out-of-range slot |
| Timestamps.FindTimestamped | src/lib/server/log-analyzer.ts:102-114 | the same, from the first slot |
| Timestamps.FindTimestampedWindow | src/lib/server/log-analyzer.ts:102-114 | a result k other than -1 is a timestamped line in `[index-9, index]` (start search) or `[index, index+9]` (end search), with no timestamped line between it and `index`; -1 means no line of that window is timestamped |
| Timestamps.FindTimestampedInRange | src/lib/server/log-analyzer.ts:102-114 | when all ten slots are inside the array, the search does not throw |
| Timestamps.TryFindAbsoluteIndex | src/lib/server/log-analyzer.ts:102-114 | the counted loop with its early return computes the nearest-timestamp search, including the throw on an out-of-range slot |
| Timestamps.TimeLineFromSpec | src/lib/server/log-analyzer.ts:312-314 | the forward walk throws exactly when no later line is timestamped; otherwise it stops at the first timestamped one |
| Timestamps.FindSingleLineTimeLine | src/lib/server/log-analyzer.ts:309-314 | the `while` loop with its pre-decremented offset computes the line whose time the error takes: the line itself when it is timestamped, or the result of the forward walk |
| Metadata.SameOnEveryField | src/lib/server/log-analyzer.ts:135-149 | two metadata records that agree on each of the twelve fields are equal |
| Metadata.ApplyInitMetadata | src/lib/server/log-analyzer.ts:199-261 | the `LogInit:` `switch`. No contract of its own; `InitMetadataValues` states what each key stores, `InitMetadataFrame` what it leaves alone and `InitKeyCases` which labels select which case |
| Metadata.ApplyCsvMetadata | src/lib/server/log-analyzer.ts:277-296 | the CSV-profiler `switch`. No contract of its own; `CsvMetadataDispatch` states what each key stores and that other keys change nothing |
| Metadata.InitKeyCases | src/lib/server/log-analyzer.ts:199-261 | each init case is selected by exactly its labels: `Build`/`Version`, `Net CL`/`API Version`, the two `Compiled (…)` labels and the two command-line labels are aliases, and each `Compiled with …` label has its own compiler name |
| Metadata.InitCaseFrame | src/lib/server/log-analyzer.ts:199-257 | every recognised case has at least one target field and leaves every other field as it was |
| Metadata.InitCaseWrites | src/lib/server/log-analyzer.ts:199-257 | after a case has run, each of its target fields holds a value |
| Metadata.InitMetadataValues | src/lib/server/log-analyzer.ts:199-261 | what each `LogInit:` key stores. `ExecutableName`, `Platform`, `Branch Name`, `Build Configuration`, `Engine Version` and `Base Directory` store the value in their own field, and `Build`/`Version` store it in `buildVersion`. `Net CL`/`API Version` store `parseInt` of it in `netCL`, and the `Compiled (…)` labels store its ISO conversion in `compiledAt`. Each `Compiled with …` label stores its fixed compiler name and the value as its version, and the two command-line labels store the trimmed value. Every other field is kept |
| Metadata.InitMetadataFrame | src/lib/server/log-analyzer.ts:199-261 | a `LogInit:` key changes only the fields its case writes; an unrecognised key (`default`) leaves the metadata unchanged |
| Metadata.InitCaseOverwrites | src/lib/server/log-analyzer.ts:199-257 | the written fields do not depend on their earlier values |
| Metadata.CsvMetadataDispatch | src/lib/server/log-analyzer.ts:277-296 | `platform`, `config`, `buildversion` and `engineversion` each store the value in their own field and touch nothing else; any other key changes nothing |
| Metadata.WriteFrame | src/lib/server/log-analyzer.ts:199-296 | a metadata line of either kind changes only its target fields |
| Metadata.WriteOverwrites | src/lib/server/log-analyzer.ts:199-296 | a metadata line sets its target fields whatever they held before |
| Metadata.LastWriteWins | src/lib/server/log-analyzer.ts:199-296 | when a later metadata line targets every field an earlier one did, the earlier line has no effect: the last write wins |
| Sorting.Insert | src/lib/server/log-analyzer.ts:431 | inserting into a sorted list gives a sorted list with one more copy of the value |
| Sorting.SortStrings | src/lib/server/log-analyzer.ts:431 | `sort()` gives a sorted permutation of its input |
| Sorting.SortedPermutationUnique | src/lib/server/log-analyzer.ts:431 | there is only one sorted permutation, so the result does not depend on the engine's sorting algorithm |
| Sorting.SortKeepsValues | src/lib/server/log-analyzer.ts:431 | sorting keeps the same set of values and introduces no duplicates |
| Sorting.LexReflexive | src/lib/server/log-analyzer.ts:431 | the string order is reflexive |
| Sorting.LexTotal | src/lib/server/log-analyzer.ts:431 | any two strings are comparable |
| Sorting.LexAntisymmetric | src/lib/server/log-analyzer.ts:431 | strings ordered both ways are equal |
| Sorting.LexTransitive | src/lib/server/log-analyzer.ts:431 | the string order is transitive |
| Sorting.SortedHeadFirst | src/lib/server/log-analyzer.ts:431 | the head of a sorted list comes before each of its values |
| Sorting.SortedTail | src/lib/server/log-analyzer.ts:431 | the tail of a sorted list is sorted |
| Sorting.MultisetTail | src/lib/server/log-analyzer.ts:431 | removing the head removes one copy of it |
| Sorting.NoDuplicatesCount | src/lib/server/log-analyzer.ts:424-426 | in a duplicate-free list every value occurs once or not at all |
| Sorting.DuplicateCount | src/lib/server/log-analyzer.ts:424-426 | a repeated value occurs at least twice |
| Sorting.SameSetSameMultiset | src/lib/server/log-analyzer.ts:424-431 | duplicate-free lists with the same values are permutations of each other |
| LogAnalyzer.Classify | src/lib/server/log-analyzer.ts:164-428 | the branch a trimmed line takes is the one whose marker test holds, and no earlier branch's test holds (first match wins) |
| LogAnalyzer.StripQuotes | src/lib/server/log-analyzer.ts:117-120 | the first and last characters are removed exactly when the text starts and ends with `"` (at least two characters); otherwise it is unchanged |
| LogAnalyzer.TryParseJson | src/lib/server/log-analyzer.ts:116-129 | the decoded value of the quote-stripped text when decoding succeeds, otherwise that text itself as a string; it never throws |
| LogAnalyzer.Content | src/lib/server/log-analyzer.ts:191-193 | no contract of its own: the text after the 24-character timestamp when the line has one. Used by the two metadata branches, whose lemmas state the result |
| LogAnalyzer.StatusOf | src/lib/server/log-analyzer.ts:308 | no contract of its own: `parseInt` of the status-code capture, or `null`. `MatchStatusCode` states the capture is a digit run and `ParseIntOfDigits` its value |
| LogAnalyzer.ProfileUpdateStep | src/lib/server/log-analyzer.ts:165-187 | the profile-update branch as a step on the output. No contract of its own; `ProfileUpdateStepRecord` states what it appends |
| LogAnalyzer.InitMetadataStep | src/lib/server/log-analyzer.ts:190-265 | the `LogInit:` branch. No contract of its own; `InitMetadataLineUpdate` states the new metadata |
| LogAnalyzer.CsvMetadataStep | src/lib/server/log-analyzer.ts:268-300 | the CSV-profiler branch. No contract of its own; `CsvMetadataLineUpdate` states the new metadata |
| LogAnalyzer.SingleLineErrorStep | src/lib/server/log-analyzer.ts:303-324 | the single-line error branch. No contract of its own; `SingleLineErrorOutcome` states when it throws and what it appends |
| LogAnalyzer.ErrorSplitIndex | src/lib/server/log-analyzer.ts:347-363 | no contract of its own; `ErrorSplitIndexSpec` characterises it and `FirstLineErrorStartIndex` is the code's three-stage form |
| LogAnalyzer.ErrorData | src/lib/server/log-analyzer.ts:371-376 | no contract of its own: the trimmed tail of the joined lines after the split index. `MultiLineErrorSpan` and `MultiLineErrorAppends` state it as the error's data |
| LogAnalyzer.MultiLineErrorStep | src/lib/server/log-analyzer.ts:327-387 | the multi-line error branch. No contract of its own; `MultiLineErrorAppends`, `MultiLineErrorAborts`, `MultiLineErrorSpan` and the two `MultiLineErrorThrows…` lemmas state its outcomes |
| LogAnalyzer.IsMmsError | src/lib/server/log-analyzer.ts:396-399 | no contract of its own; `IsMmsErrorMeans` states which JSON values pass the filter |
| LogAnalyzer.MmsStep | src/lib/server/log-analyzer.ts:390-408 | the MMS branch. No contract of its own; `MmsLineOutcome` states what it appends |
| LogAnalyzer.CleanUrl | src/lib/server/log-analyzer.ts:415-417 | no contract of its own; `CleanUrlSpec` states that exactly one trailing `.` is removed |
| LogAnalyzer.AddUrl | src/lib/server/log-analyzer.ts:414-426 | the `forEach` body for one match. No contract of its own; `AddUrlConsistent` states the invariant it keeps |
| LogAnalyzer.AddUrls | src/lib/server/log-analyzer.ts:414-427 | the `forEach` over the matches. No contract of its own; `AddUrlsEvents`, `AddUrlsExtends` and `AddUrlsConsistent` state what it appends and the invariant it keeps |
| LogAnalyzer.UrlStep | src/lib/server/log-analyzer.ts:411-428 | the URL branch. No contract of its own; `UrlStepExtends`, `AddUrlsEvents` and `StepKeepsUrlsConsistent` state what it appends and keeps |
| LogAnalyzer.Step | src/lib/server/log-analyzer.ts:161-428 | one iteration of the loop: trim, classify, run the branch. No contract of its own; `AnalyzeLine` is the loop body proved equal to it, and `StepFrame`, `StepExtends` and `StepKeepsUrlsConsistent` state its properties |
| LogAnalyzer.Finish | src/lib/server/log-analyzer.ts:431 | the final `sort()`. No contract of its own; `FinishCompletes` states the sorted, consistent result |
| LogAnalyzer.Analyze | src/lib/server/log-analyzer.ts:131-434 | `analyzeLog` as a function: the split, the fold of `Step` over the lines and the sort. No contract of its own; `AnalyzeLog` is the loop proved equal to it, and `RunOutcome`, `AnalyzeUniqueUrls`, `UniqueUrlsDetermined` and `AnalyzeWithoutErrorLines` state its properties |
| LogAnalyzer.AnalyzeLog | src/lib/server/log-analyzer.ts:131-434 | the imperative pass (split, the per-line loop, the final sort) computes the whole-file fold `Analyze`, throwing exactly when it does |
| LogAnalyzer.AnalyzeLine | src/lib/server/log-analyzer.ts:161-428 | one iteration of the loop body (trim, branch chain, `continue`) computes the step function for that line |
| LogAnalyzer.AnalyzeProfileUpdate | src/lib/server/log-analyzer.ts:165-187 | the profile-update branch computes its step function |
| LogAnalyzer.AnalyzeInitMetadata | src/lib/server/log-analyzer.ts:190-265 | the `LogInit:` branch computes its step function |
| LogAnalyzer.AnalyzeCsvMetadata | src/lib/server/log-analyzer.ts:268-300 | the CSV-profiler branch computes its step function |
| LogAnalyzer.AnalyzeSingleLineError | src/lib/server/log-analyzer.ts:303-324 | the single-line error branch computes its step function, throw included |
| LogAnalyzer.AnalyzeMultiLineError | src/lib/server/log-analyzer.ts:327-387 | the multi-line error branch computes its step function, throws and early `continue`s included |
| LogAnalyzer.FirstLineErrorStartIndex | src/lib/server/log-analyzer.ts:347-363 | the three-stage fallback computes the split index |
| LogAnalyzer.AnalyzeMmsMessage | src/lib/server/log-analyzer.ts:390-408 | the MMS branch computes its step function |
| LogAnalyzer.CollectUrls | src/lib/server/log-analyzer.ts:411-427 | the `forEach` over the matches computes the URL update, one match after another |
| AnalyzerProperties.StepFrame | src/lib/server/log-analyzer.ts:161-428 | a line can throw only on an error branch; each branch changes only its own part of the output (metadata, profile updates, errors, MMS errors or URLs), and a line that matches no marker changes nothing |
| AnalyzerProperties.AddUrlsExtends | src/lib/server/log-analyzer.ts:414-427 | URL handling only appends to the event list and to the unique list |
| AnalyzerProperties.UrlStepExtends | src/lib/server/log-analyzer.ts:411-428 | a URL line only appends |
| AnalyzerProperties.SingleLineErrorStepExtends | src/lib/server/log-analyzer.ts:303-324 | a single-line error only appends |
| AnalyzerProperties.MultiLineErrorStepExtends | src/lib/server/log-analyzer.ts:327-387 | a multi-line error only appends |
| AnalyzerProperties.StepExtends | src/lib/server/log-analyzer.ts:161-428 | no line removes or reorders anything already in an event list: every list of the output before the line is a prefix of the list after it |
| AnalyzerProperties.ProfileUpdateStepRecord | src/lib/server/log-analyzer.ts:166-184 | the profile-update step appends exactly one record when the pattern matches, and nothing otherwise. The record's ids are the 32-character hex account id and the other groups unchanged, and `rvn` and `wipeNumber` are the decimal values of their digits |
| AnalyzerProperties.ProfileUpdateLineRecord | src/lib/server/log-analyzer.ts:165-187 | the same, for a line the classifier sends to the profile-update branch, the time being that of the line |
| AnalyzerProperties.InitMetadataLineUpdate | src/lib/server/log-analyzer.ts:190-265 | a `LogInit:` line, read after its timestamp when it has one, applies its key and value to the metadata and changes nothing else. The new metadata holds, for the matched key, exactly what `Metadata.InitMetadataValues` lists, and every other field is kept. Without a match the line changes nothing |
| AnalyzerProperties.CsvMetadataLineUpdate | src/lib/server/log-analyzer.ts:268-300 | the same, for a CSV-profiler metadata line |
| AnalyzerProperties.SingleLineErrorHasResponse | src/lib/server/log-analyzer.ts:303-307 | every line containing ` Raw={"` has a `Raw=` response match, so the response test never fails on a line sent to this branch |
| AnalyzerProperties.SingleLineErrorOutcome | src/lib/server/log-analyzer.ts:303-324 | every line sent to this branch has a response. A single-line error throws exactly when neither it nor any later line is timestamped. Otherwise it appends one error carrying the line's status code and decoded response, with the time of the line itself or of the first later timestamped line |
| AnalyzerProperties.ErrorSplitIndexSpec | src/lib/server/log-analyzer.ts:347-363 | the split index is the `=` of the last `Raw=`, else the last `=`, else the last `:`, and -1 exactly when the anchor line has neither `=` nor `:` |
| AnalyzerProperties.SingleCharOccurrence | src/lib/server/log-analyzer.ts:357-362 | `lastIndexOf` of one character finds it exactly when the character occurs |
| AnalyzerProperties.MultiLineErrorSpan | src/lib/server/log-analyzer.ts:327-387 | an appended multi-line error has anchor line `start` and end line `end` with `i-9 <= start < i < end <= i+9`. Both are timestamped, no line between them is, and the anchor has a split index. The error's data is the trim of the concatenation of `lines[start..end)` after the split index, and its time and status code come from the anchor line |
| AnalyzerProperties.MultiLineErrorAppends | src/lib/server/log-analyzer.ts:327-387 | when both searches find a timestamped line and the anchor line has a split character, the line appends exactly one error: `start < i < end`, the anchor's time and status code, and the decoded trim of the joined lines after the split index |
| AnalyzerProperties.MultiLineErrorAborts | src/lib/server/log-analyzer.ts:328-369 | a multi-line error line adds nothing when no start is found, when no end is found, or when the anchor line has no split character |
| AnalyzerProperties.SearchReachesOutside | src/lib/server/log-analyzer.ts:102-114 | a search that reaches an index outside the array before any timestamped line throws |
| AnalyzerProperties.MultiLineErrorThrowsNearStart | src/lib/server/log-analyzer.ts:328 | a multi-line error on one of the first nine lines, with no timestamp at or before it, throws |
| AnalyzerProperties.MultiLineErrorThrowsNearEnd | src/lib/server/log-analyzer.ts:337 | a multi-line error near the end of the log, with a start found but no timestamp at or after it, throws |
| AnalyzerProperties.IsMmsErrorMeans | src/lib/server/log-analyzer.ts:396-399 | the MMS filter holds exactly for a JSON object whose `name` is the string `Error` and whose `payload` is an object, an array or `null` (`typeof null` is `'object'`) |
| AnalyzerProperties.MmsLineOutcome | src/lib/server/log-analyzer.ts:390-408 | an MMS line appends one entry with the line's time and the decoded payload when the filter holds, and changes nothing otherwise |
| AnalyzerProperties.CleanUrlSpec | src/lib/server/log-analyzer.ts:415-417 | a URL ending in `.` loses exactly that last character; any other URL is kept |
| AnalyzerProperties.AddUrlConsistent | src/lib/server/log-analyzer.ts:419-426 | adding one URL keeps the unique list duplicate-free and equal, as a set, to the URLs of the events |
| AnalyzerProperties.AddUrlsConsistent | src/lib/server/log-analyzer.ts:414-427 | the same, for all the matches of a line |
| AnalyzerProperties.AddUrlsEvents | src/lib/server/log-analyzer.ts:414-427 | the matches of a line append exactly one event each, in match order, each with the line's time and the cleaned URL |
| AnalyzerProperties.StepKeepsUrlsConsistent | src/lib/server/log-analyzer.ts:161-428 | every line keeps the unique-URL invariant |
| AnalyzerProperties.FoldInvariant | src/lib/server/log-analyzer.ts:161-431 | an invariant every line keeps, and that the final sort turns into a result property, holds of the output of any pass that completes |
| AnalyzerProperties.FoldCompletes | src/lib/server/log-analyzer.ts:161-429 | a pass in which no line throws completes |
| AnalyzerProperties.StepProgress | src/lib/server/log-analyzer.ts:161-428 | each line keeps the output an extension of the initial one, with consistent URLs |
| AnalyzerProperties.FinishCompletes | src/lib/server/log-analyzer.ts:431 | after the final sort the unique URLs are sorted and still consistent, and every event list still extends the initial one |
| AnalyzerProperties.RunOutcome | src/lib/server/log-analyzer.ts:161-431 | a completed pass from any position gives an output that extends its input, with sorted and consistent unique URLs |
| AnalyzerProperties.AnalyzeUniqueUrls | src/lib/server/log-analyzer.ts:411-431 | a completed analysis has a sorted, duplicate-free `uniqueUrls` listing exactly the URLs of the URL events |
| AnalyzerProperties.UniqueUrlsDetermined | src/lib/server/log-analyzer.ts:411-431 | any sorted, duplicate-free list of exactly the event URLs is the analysis's `uniqueUrls` |
| AnalyzerProperties.StepWithoutError | src/lib/server/log-analyzer.ts:161-428 | a line that takes neither error branch never raises the out-of-range `TypeError` (the only exception modelled) |
| AnalyzerProperties.AnalyzeWithoutErrorLines | src/lib/server/log-analyzer.ts:131-434 | a log with no error lines is analysed without the out-of-range `TypeError` |
| AnalyzerProperties.StripQuotesOfQuoted | src/lib/server/log-analyzer.ts:117-120 | quoting then stripping gives the text back |
| AnalyzerProperties.TryParseJsonOfQuoted | src/lib/server/log-analyzer.ts:116-129 | a quoted response decodes as its unquoted text, or falls back to that text |

## Left out

- `src/lib/server/storage.ts` (S3 client set-up from environment variables) and the routes: they are I/O plumbing around the analyser, and they are not part of this model.
- `console.debug` at `:332`, `:341` and `:366`: it prints diagnostics only and does not affect the output.
- Timestamps.ParseTime: the `Date` parsing and `toISOString()` at `:94-96` and `:232` depend on the time zone and are not modelled. They are the parameter `rt.dateToIso`, taken as a total function, so the `RangeError` that `toISOString()` throws on an invalid date (for instance an out-of-range month in a log line, or an unparsable `Compiled (64-bit)` value) is not modelled. Only the fallback `line.substring(1, 24)` is concrete.
- LogAnalyzer.TryParseJson: `JSON.parse` itself is the parameter `rt.jsonParse`, which yields a value or fails. JSON numbers are whole numbers in the `Json` datatype, and objects are maps, so key order and duplicate keys are not modelled.
- Patterns: the regular-expression engine is replaced by one hand-written backtracking matcher per pattern. Only the captures and match boundaries the analyser uses are returned. `.` excludes `\n`, `\r`, U+2028 and U+2029.
- Strings: strings are sequences of code points, not UTF-16 code units. Indices, `trim()` and `sort()` order therefore differ from JavaScript on characters outside the Basic Multilingual Plane.
- Strings.ParseInt: it covers sign, `0x` prefixes and leading digits, with NaN for an empty digit run. It does not produce `-0`, and it has no floating-point precision limit for long digit runs.
- Sorting.SortStrings: `sort()` is modelled as a function on the sequence, not as an in-place sort of the array. The engine's algorithm does not show, since the sorted permutation is unique.
- The output accumulator: it is modelled as a value that each line replaces, not as an object mutated in place. No other reference to it exists during the pass, so there is no aliasing to capture.
- AnalyzerProperties.StepWithoutError: the conclusion that the line does not throw covers only the out-of-range `TypeError`. Profile-update, MMS and URL lines call `parseTime`, and `Compiled (…)` keys call `toISOString()`. Both can throw `RangeError` on an invalid date, which the total `rt.dateToIso` does not express.
- AnalyzerProperties.AnalyzeWithoutErrorLines: the same. A log without error lines can still end with that `RangeError` in the program.
- Exceptions: the only ones modelled are the `TypeError`s from `hasTime(undefined)` when a line index falls outside the array. Runtime exceptions inside `Date` or `JSON.parse` handling are limited to what the two parameters express.
