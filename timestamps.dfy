/** Recognising and reading the `[YYYY.MM.DD-hh.mm.ss:mmm]` prefix of engine log
    lines, and the bounded searches for the nearest line that carries one
    (src/lib/server/log-analyzer.ts:79-114 and :309-314). */
module Timestamps {
  import opened JsRuntime
  import opened Strings
  import opened Patterns

  /** `hasTime(line)`: the positional pre-check. An offset past the end reads
      `undefined`, which equals none of the separators, so a line shorter than
      25 characters never passes. */
  predicate HasTime(line: string) {
    |line| > 24
    && line[0] == '[' && line[5] == '.' && line[8] == '.' && line[11] == '-'
    && line[14] == '.' && line[17] == '.' && line[20] == ':' && line[24] == ']'
  }

  /** A timestamped line is still timestamped once trimmed: it does not start
      with whitespace and `trim` keeps its first 25 characters. So a trimmed line
      without a timestamp comes from a raw line without one. */
  lemma HasTimeOfTrim(line: string)
    ensures HasTime(line) ==> HasTime(Trim(line))
  {
    if HasTime(line) {
      TrimKeepsPrefix(line, 25);
      assert Trim(line)[..25] == line[..25];
      assert forall k :: 0 <= k < 25 ==> Trim(line)[k] == line[..25][k];
    }
  }

  /** The date text `parseTime` hands to `new Date(...)`. */
  function DateText(g: TimeGroups): string {
    g.year + "." + g.month + "." + g.date + " " + g.hour + ":" + g.minute + ":" + g.second + "." + g.millisecond
  }

  /** `parseTime(line)`: the matched timestamp converted by the host's date
      library, or else the raw characters at offsets 1 to 23. */
  function ParseTime(line: string, rt: Runtime): string {
    match MatchTime(line)
    case Some(g) => rt.dateToIso(DateText(g))
    case None => Substring(line, 1, 24)
  }

  /** Without any timestamp layout in the line, `parseTime` returns the 23
      characters after the first one, fewer when the line is shorter, and the
      empty string for a line of at most one character. */
  lemma ParseTimeFallback(line: string, rt: Runtime)
    requires forall p :: 0 <= p <= |line| ==> !TimeLayoutAt(line, p)
    ensures |line| >= 24 ==> ParseTime(line, rt) == line[1..24]
    ensures 1 <= |line| < 24 ==> ParseTime(line, rt) == line[1..]
    ensures |line| <= 1 ==> ParseTime(line, rt) == ""
  {
  }

  /** A line that passes `hasTime` and has digits where the pattern wants them
      is parsed from its own first 25 characters. */
  lemma ParseTimeOfTimestampedLine(line: string, rt: Runtime)
    requires HasTime(line)
    requires AllChars(line[1..5], IsDigit) && AllChars(line[6..8], IsDigit) && AllChars(line[9..11], IsDigit)
    requires AllChars(line[12..14], IsDigit) && AllChars(line[15..17], IsDigit) && AllChars(line[18..20], IsDigit)
    requires AllChars(line[21..24], IsDigit)
    ensures ParseTime(line, rt) == rt.dateToIso(DateText(TimeGroups(line[1..5], line[6..8], line[9..11],
                                                 line[12..14], line[15..17], line[18..20], line[21..24])))
  {
    assert TimeLayoutAt(line, 0);
  }

  // ---------------------------------------------------------------------------
  // tryFindAbsoluteIndex (:102-114)

  /** The `j`-th line the search visits. */
  function Slot(index: int, searchForStart: bool, j: nat): int {
    if searchForStart then index - j else index + j
  }

  /** The first `n` slots all exist and none of them is timestamped. */
  predicate SlotsUntimed(lines: seq<string>, index: int, searchForStart: bool, n: nat) {
    forall j :: 0 <= j < n ==> 0 <= Slot(index, searchForStart, j) < |lines|
                               && !HasTime(lines[Slot(index, searchForStart, j)])
  }

  /** What the search promises: it returns the nearest timestamped slot among
      the ten, reading no line past it; -1 when all ten slots exist and none is
      timestamped; and it throws only by reaching outside the array before
      finding a timestamped line. */
  predicate SearchOutcome(lines: seq<string>, index: int, searchForStart: bool, r: Completion<int>) {
    match r
    case Normal(k) =>
      if k == -1 then SlotsUntimed(lines, index, searchForStart, 10)
      else exists j :: 0 <= j < 10 && k == Slot(index, searchForStart, j) && 0 <= k < |lines|
                       && HasTime(lines[k]) && SlotsUntimed(lines, index, searchForStart, j)
    case Throw =>
      exists j :: 0 <= j < 10 && !(0 <= Slot(index, searchForStart, j) < |lines|)
                  && SlotsUntimed(lines, index, searchForStart, j)
  }

  /** The search from slot `j` on. */
  function SearchFrom(lines: seq<string>, index: int, searchForStart: bool, j: nat): (r: Completion<int>)
    requires j <= 10
    requires SlotsUntimed(lines, index, searchForStart, j)
    ensures SearchOutcome(lines, index, searchForStart, r)
    decreases 10 - j
  {
    if j == 10 then Normal(-1)
    else
      var k := Slot(index, searchForStart, j);
      if !(0 <= k < |lines|) then Throw
      else if HasTime(lines[k]) then Normal(k)
      else SearchFrom(lines, index, searchForStart, j + 1)
  }

  function FindTimestamped(lines: seq<string>, index: int, searchForStart: bool): (r: Completion<int>)
    ensures SearchOutcome(lines, index, searchForStart, r)
  {
    SearchFrom(lines, index, searchForStart, 0)
  }

  /** The nearest timestamped line found backwards lies in `[index-9, index]`,
      forwards in `[index, index+9]`, every line strictly between it and `index`
      exists and is not timestamped, and -1 means all ten slots were read and
      none was timestamped. */
  lemma FindTimestampedWindow(lines: seq<string>, index: int, searchForStart: bool)
    ensures var r := FindTimestamped(lines, index, searchForStart);
      && (r.Normal? && r.value != -1 && searchForStart ==>
            index - 9 <= r.value <= index && HasTime(lines[r.value])
            && forall m :: r.value < m <= index ==> 0 <= m < |lines| && !HasTime(lines[m]))
      && (r.Normal? && r.value != -1 && !searchForStart ==>
            index <= r.value <= index + 9 && HasTime(lines[r.value])
            && forall m :: index <= m < r.value ==> 0 <= m < |lines| && !HasTime(lines[m]))
      && (r == Normal(-1) ==>
            forall m :: (if searchForStart then index - 9 <= m <= index else index <= m <= index + 9)
                        ==> 0 <= m < |lines| && !HasTime(lines[m]))
  {
    var r := FindTimestamped(lines, index, searchForStart);
    if r.Normal? && r.value != -1 {
      var j :| 0 <= j < 10 && r.value == Slot(index, searchForStart, j) && 0 <= r.value < |lines|
               && HasTime(lines[r.value]) && SlotsUntimed(lines, index, searchForStart, j);
      if searchForStart {
        forall m | r.value < m <= index ensures 0 <= m < |lines| && !HasTime(lines[m]) {
          assert m == Slot(index, searchForStart, index - m);
        }
      } else {
        forall m | index <= m < r.value ensures 0 <= m < |lines| && !HasTime(lines[m]) {
          assert m == Slot(index, searchForStart, m - index);
        }
      }
    } else if r == Normal(-1) {
      forall m | (if searchForStart then index - 9 <= m <= index else index <= m <= index + 9)
        ensures 0 <= m < |lines| && !HasTime(lines[m])
      {
        if searchForStart {
          assert m == Slot(index, searchForStart, index - m);
        } else {
          assert m == Slot(index, searchForStart, m - index);
        }
      }
    }
  }

  /** When all ten slots exist, the search does not throw. */
  lemma FindTimestampedInRange(lines: seq<string>, index: int, searchForStart: bool)
    requires forall j :: 0 <= j < 10 ==> 0 <= Slot(index, searchForStart, j) < |lines|
    ensures FindTimestamped(lines, index, searchForStart).Normal?
  {
    var r := FindTimestamped(lines, index, searchForStart);
    if r.Throw? {
      var j :| 0 <= j < 10 && !(0 <= Slot(index, searchForStart, j) < |lines|)
               && SlotsUntimed(lines, index, searchForStart, j);
      assert false;
    }
  }

  /** `tryFindAbsoluteIndex(lines, index, searchForStart)`: the counted loop
      with its early return. */
  method TryFindAbsoluteIndex(lines: seq<string>, index: int, searchForStart: bool) returns (r: Completion<int>)
    ensures SearchOutcome(lines, index, searchForStart, r)
    ensures r == FindTimestamped(lines, index, searchForStart)
  {
    for j := 0 to 10
      invariant SlotsUntimed(lines, index, searchForStart, j)
      invariant SearchFrom(lines, index, searchForStart, j) == FindTimestamped(lines, index, searchForStart)
    {
      var absoluteIndex := if searchForStart then index - j else index + j;
      if !(0 <= absoluteIndex < |lines|) {
        // lines[absoluteIndex] is undefined and hasTime reads its [0]
        return Throw;
      }
      if HasTime(lines[absoluteIndex]) {
        return Normal(absoluteIndex);
      }
    }
    return Normal(-1);
  }

  // ---------------------------------------------------------------------------
  // The time line of a single-line error (:309-314)

  /** The walk from line `k` on: the first timestamped line at or after `k`,
      or a throw once it reads past the last line. */
  function TimeLineFrom(lines: seq<string>, k: nat): Completion<string>
    decreases |lines| - k
  {
    if k >= |lines| then Throw
    else if HasTime(lines[k]) then Normal(lines[k])
    else TimeLineFrom(lines, k + 1)
  }

  /** The loop `while (!hasTime(timeLine) && timeLineOffset < 10) timeLine =
      lines[i - --timeLineOffset]`: the offset only decreases, so its bound never
      stops the loop and the walk goes FORWARD from line `i + 1`. */
  function SingleLineTimeLine(lines: seq<string>, i: nat, line: string): Completion<string> {
    if HasTime(line) then Normal(line) else TimeLineFrom(lines, i + 1)
  }

  /** The time line is the trimmed line itself when it is timestamped, otherwise
      the first timestamped line after `i`; the walk throws exactly when there is
      no such line. It never looks backwards. */
  lemma {:induction false} TimeLineFromSpec(lines: seq<string>, k: nat)
    ensures TimeLineFrom(lines, k).Throw? <==> forall m :: k <= m < |lines| ==> !HasTime(lines[m])
    ensures TimeLineFrom(lines, k).Normal? ==>
              exists m :: k <= m < |lines| && TimeLineFrom(lines, k).value == lines[m] && HasTime(lines[m])
                          && forall n :: k <= n < m ==> !HasTime(lines[n])
    decreases |lines| - k
  {
    if k < |lines| && !HasTime(lines[k]) {
      TimeLineFromSpec(lines, k + 1);
      var r := TimeLineFrom(lines, k);
      if r.Normal? {
        var m :| k + 1 <= m < |lines| && r.value == lines[m] && HasTime(lines[m])
                 && forall n :: k + 1 <= n < m ==> !HasTime(lines[n]);
        assert forall n :: k <= n < m ==> !HasTime(lines[n]);
      }
    } else if k < |lines| {
      assert TimeLineFrom(lines, k).value == lines[k];
    }
  }

  /** The loop itself. */
  method FindSingleLineTimeLine(lines: seq<string>, i: nat, line: string) returns (r: Completion<string>)
    requires i < |lines|
    ensures r == SingleLineTimeLine(lines, i, line)
  {
    var timeLine := line;
    var timeLineOffset := 0;
    while !HasTime(timeLine) && timeLineOffset < 10
      invariant timeLineOffset <= 0
      invariant i - timeLineOffset < |lines|
      invariant timeLineOffset == 0 ==> timeLine == line
      invariant timeLineOffset < 0 ==> timeLine == lines[i - timeLineOffset]
      invariant SingleLineTimeLine(lines, i, line) ==
                (if HasTime(timeLine) then Normal(timeLine) else TimeLineFrom(lines, i - timeLineOffset + 1))
      decreases |lines| - (i - timeLineOffset)
    {
      timeLineOffset := timeLineOffset - 1;
      if i - timeLineOffset >= |lines| {
        // lines[i - timeLineOffset] is undefined: the next hasTime throws
        return Throw;
      }
      timeLine := lines[i - timeLineOffset];
    }
    r := Normal(timeLine);
  }
}
