/**
 * The import pipeline of backend/src/time-clock/time-clock.service.ts:
 * slot assignment of the time tokens (`parseTimeEntries`), the per-record
 * flow (`processTimeClockRecord`: identify the employee, compute the day
 * with the rule engine, upsert the day, credit the ledger), the text-file
 * loop (`importFromTxt`), the spreadsheet-row loop (`importFromExcel` after
 * the workbook has been read into rows) and the extension dispatch
 * (`importFromFile`).
 *
 * The stored days are a map keyed by (user id, date); the user directory is
 * a map keyed by employee id; "today" and the clock are parameters, and the
 * JavaScript `Date` parser applied to a spreadsheet `date` cell is the
 * parameter `jsDate`.
 */
module TimeClockImport {
  import opened Common
  import opened TimeParsing
  import opened RuleTypes
  import RuleEngine
  import CltStrategy
  import opened HourBalance

  // =====================================================================
  // parseTimeEntries

  /** The keys `entry<n>` and `exit<n>` of the object `parseTimeEntries` fills. */
  datatype PunchSlot = EntrySlot(index: nat) | ExitSlot(index: nat)

  /** The filled slots and the pair counter `entryIndex`. */
  datatype SlotState = SlotState(entries: map<PunchSlot, int>, entryIndex: nat)

  /** `setHours(h, m, 0, 0)` on the base date, as minutes from its midnight; past 24h this is the next day's time, counted from the base midnight. */
  function MinuteOfDay(t: ClockTime): int
  {
    t.hours * 60 + t.minutes
  }

  /** What one iteration reads from a token: nothing for an empty one, else `parseTime`. */
  function Token(t: string): Option<ClockTime>
  {
    if t == "" then None else ParseTime(t)
  }

  function Tokens(times: seq<string>): (r: seq<Option<ClockTime>>)
    ensures |r| == |times| && forall k :: 0 <= k < |times| ==> r[k] == Token(times[k])
  {
    seq(|times|, k requires 0 <= k < |times| => Token(times[k]))
  }

  /**
   * One iteration: a token that gives no time is skipped; otherwise an even
   * position fills `entry<entryIndex>` and an odd position fills
   * `exit<entryIndex>` and moves to the next pair.
   */
  function AssignToken(st: SlotState, position: nat, parsed: Option<ClockTime>): SlotState
  {
    match parsed
    case None => st
    case Some(t) =>
      if position % 2 == 0 then st.(entries := st.entries[EntrySlot(st.entryIndex) := MinuteOfDay(t)])
      else SlotState(st.entries[ExitSlot(st.entryIndex) := MinuteOfDay(t)], st.entryIndex + 1)
  }

  /** The slots after the parsed tokens, starting from no slots and pair 1. */
  function Fill(parsed: seq<Option<ClockTime>>): SlotState
  {
    if parsed == [] then SlotState(map[], 1)
    else AssignToken(Fill(parsed[..|parsed| - 1]), |parsed| - 1, parsed[|parsed| - 1])
  }

  /** `parseTimeEntries` on the tokens `times`. */
  function AssignSlots(times: seq<string>): SlotState
  {
    Fill(Tokens(times))
  }

  method ParseTimeEntries(times: seq<string>) returns (entries: map<PunchSlot, int>)
    ensures entries == AssignSlots(times).entries
  {
    entries := map[];
    var entryIndex := 1;
    ghost var parsed := Tokens(times);
    var i := 0;
    while i < |times|
      invariant 0 <= i <= |times|
      invariant SlotState(entries, entryIndex) == Fill(parsed[..i])
    {
      assert parsed[..i + 1][..i] == parsed[..i];
      var timeStr := times[i];
      if timeStr != "" {
        var time := ParseTime(timeStr);
        if time.Some? {
          var dateTime := MinuteOfDay(time.value);
          if i % 2 == 0 {
            entries := entries[EntrySlot(entryIndex) := dateTime];
          } else {
            entries := entries[ExitSlot(entryIndex) := dateTime];
            entryIndex := entryIndex + 1;
          }
        }
      }
      i := i + 1;
    }
    assert parsed[..|times|] == parsed;
  }

  /** The slot that token `k` fills when every token parses. */
  function SlotOf(k: nat): PunchSlot
  {
    if k % 2 == 0 then EntrySlot(k / 2 + 1) else ExitSlot(k / 2 + 1)
  }

  /** With the counter at pair n/2 + 1, token n's time goes to `SlotOf(n)` and the counter moves on to pair (n+1)/2 + 1. */
  lemma TokenFillsSlotOf(st: SlotState, n: nat, t: ClockTime)
    requires st.entryIndex == n / 2 + 1
    ensures AssignToken(st, n, Some(t)) == SlotState(st.entries[SlotOf(n) := MinuteOfDay(t)], (n + 1) / 2 + 1)
  {
  }

  /** Different tokens fill different slots. */
  lemma SlotsDiffer(k: nat, n: nat)
    requires k < n
    ensures SlotOf(k) != SlotOf(n)
  {
  }

  /**
   * When every token gives a time, token k fills the entry (k even) or the
   * exit (k odd) of pair k/2 + 1, and no other slot is filled.
   */
  lemma AllParsedTokensFillTheirSlots(parsed: seq<Option<ClockTime>>)
    requires forall k :: 0 <= k < |parsed| ==> parsed[k].Some?
    ensures Fill(parsed).entryIndex == |parsed| / 2 + 1
    ensures forall k :: 0 <= k < |parsed| ==>
      SlotOf(k) in Fill(parsed).entries && Fill(parsed).entries[SlotOf(k)] == MinuteOfDay(parsed[k].value)
    ensures forall s :: s in Fill(parsed).entries ==> exists k :: 0 <= k < |parsed| && SlotOf(k) == s
  {
    ParsedTokensFill(parsed);
    ParsedTokensFillNothingElse(parsed);
  }

  /** The counter and the filled slots, by induction on the tokens. */
  lemma {:induction false} ParsedTokensFill(parsed: seq<Option<ClockTime>>)
    requires forall k :: 0 <= k < |parsed| ==> parsed[k].Some?
    ensures Fill(parsed).entryIndex == |parsed| / 2 + 1
    ensures forall k :: 0 <= k < |parsed| ==>
      SlotOf(k) in Fill(parsed).entries && Fill(parsed).entries[SlotOf(k)] == MinuteOfDay(parsed[k].value)
  {
    if parsed != [] {
      var n := |parsed| - 1;
      var init := parsed[..n];
      assert forall k :: 0 <= k < |init| ==> init[k] == parsed[k];
      ParsedTokensFill(init);
      var before := Fill(init);
      assert Fill(parsed) == AssignToken(before, n, parsed[n]);
      TokenFillsSlotOf(before, n, parsed[n].value);
      forall k | 0 <= k < |parsed|
        ensures SlotOf(k) in Fill(parsed).entries && Fill(parsed).entries[SlotOf(k)] == MinuteOfDay(parsed[k].value)
      {
        if k < n {
          SlotsDiffer(k, n);
        }
      }
    }
  }

  /** Every filled slot is the slot of some token, by induction on the tokens. */
  lemma {:induction false} ParsedTokensFillNothingElse(parsed: seq<Option<ClockTime>>)
    requires forall k :: 0 <= k < |parsed| ==> parsed[k].Some?
    ensures forall s :: s in Fill(parsed).entries ==> exists k :: 0 <= k < |parsed| && SlotOf(k) == s
  {
    if parsed != [] {
      var n := |parsed| - 1;
      var init := parsed[..n];
      assert forall k :: 0 <= k < |init| ==> init[k] == parsed[k];
      ParsedTokensFill(init);
      ParsedTokensFillNothingElse(init);
      var before := Fill(init);
      assert Fill(parsed) == AssignToken(before, n, parsed[n]);
      TokenFillsSlotOf(before, n, parsed[n].value);
      forall s | s in Fill(parsed).entries
        ensures exists k :: 0 <= k < |parsed| && SlotOf(k) == s
      {
        if s != SlotOf(n) {
          var k :| 0 <= k < |init| && SlotOf(k) == s;
        }
      }
    }
  }

  /** With every token giving a time, token k's time lands in slot `SlotOf(k)` and nothing else is filled. */
  lemma AllParsedTimesFillTheirSlots(times: seq<string>)
    requires forall k :: 0 <= k < |times| ==> Token(times[k]).Some?
    ensures forall k :: 0 <= k < |times| ==>
      SlotOf(k) in AssignSlots(times).entries
      && AssignSlots(times).entries[SlotOf(k)] == MinuteOfDay(ParseTime(times[k]).value)
    ensures forall s :: s in AssignSlots(times).entries ==> exists k :: 0 <= k < |times| && SlotOf(k) == s
  {
    AllParsedTokensFillTheirSlots(Tokens(times));
  }

  /**
   * The pair counter moves only after a parsed exit: with an entry, then a
   * token with no digit in the exit position, then another entry, the
   * third token overwrites `entry1` and no exit is recorded.
   */
  lemma UnparsedTokenOverwritesEntry(a: string, b: string, c: string)
    requires Token(a).Some? && Token(b).None? && Token(c).Some?
    ensures AssignSlots([a, b, c]).entries == map[EntrySlot(1) := MinuteOfDay(Token(c).value)]
    ensures AssignSlots([a, b, c]).entryIndex == 1
  {
    var parsed := Tokens([a, b, c]);
    assert parsed == [Token(a), Token(b), Token(c)];
    SkippedExitOverwrites(Token(a).value, Token(c).value);
  }

  lemma SkippedExitOverwrites(x: ClockTime, y: ClockTime)
    ensures Fill([Some(x), None, Some(y)]) == SlotState(map[EntrySlot(1) := MinuteOfDay(y)], 1)
  {
    var parsed := [Some(x), None, Some(y)];
    assert parsed[..2] == [Some(x), None];
    assert parsed[..2][..1] == [Some(x)];
    assert parsed[..2][..1][..0] == [];
    assert Fill([Some(x)]) == SlotState(map[EntrySlot(1) := MinuteOfDay(x)], 1);
    assert Fill([Some(x), None]) == Fill([Some(x)]);
    assert map[EntrySlot(1) := MinuteOfDay(x)][EntrySlot(1) := MinuteOfDay(y)] == map[EntrySlot(1) := MinuteOfDay(y)];
  }

  function SlotValue(entries: map<PunchSlot, int>, s: PunchSlot): Option<int>
  {
    if s in entries then Some(entries[s]) else None
  }

  /** The day handed to the rule engine: slots 1 to 3, no holiday or weekend flag. */
  function ToTimeClockData(entries: map<PunchSlot, int>, date: CalDate, userId: string): TimeClockData
  {
    TimeClockData(date,
      SlotValue(entries, EntrySlot(1)), SlotValue(entries, ExitSlot(1)),
      SlotValue(entries, EntrySlot(2)), SlotValue(entries, ExitSlot(2)),
      SlotValue(entries, EntrySlot(3)), SlotValue(entries, ExitSlot(3)),
      false, false, userId)
  }

  /** Slots beyond the third pair are filled but never read. */
  lemma SlotsBeyondThreeIgnored(entries: map<PunchSlot, int>, s: PunchSlot, v: int, date: CalDate, userId: string)
    requires s.index > 3
    ensures ToTimeClockData(entries[s := v], date, userId) == ToTimeClockData(entries, date, userId)
  {
  }

  /** A whole-hour token `HH:00` gives hour HH and minute 0. */
  lemma WholeHourToken(d0: char, d1: char)
    requires IsDigit(d0) && IsDigit(d1)
    ensures Token([d0, d1, ':', '0', '0']) == Some(ClockTime(DigitValue(d0) * 10 + DigitValue(d1), 0))
  {
    var h := [d0, d1];
    var m := "00";
    ColonToken(h, m);
    assert h + ":" + m == [d0, d1, ':', '0', '0'];
    assert DecimalValue(h) == DigitValue(d0) * 10 + DigitValue(d1) by { assert h[..1] == [d0]; assert [d0][..0] == []; }
    assert DecimalValue(m) == 0 by { assert m[..1] == "0"; assert "0"[..0] == []; }
  }

  /** The four tokens of a standard day parse as 08:00, 12:00, 13:00 and 18:00. */
  lemma StandardDayTokens()
    ensures Token("08:00") == Some(ClockTime(8, 0)) && Token("12:00") == Some(ClockTime(12, 0))
    ensures Token("13:00") == Some(ClockTime(13, 0)) && Token("18:00") == Some(ClockTime(18, 0))
  {
    WholeHourToken('0', '8');
    WholeHourToken('1', '2');
    WholeHourToken('1', '3');
    WholeHourToken('1', '8');
  }

  /** `Fill` takes the tokens one at a time, in order. */
  lemma FillStep(parsed: seq<Option<ClockTime>>, i: nat)
    requires i < |parsed|
    ensures Fill(parsed[..i + 1]) == AssignToken(Fill(parsed[..i]), i, parsed[i])
  {
    assert parsed[..i + 1][..i] == parsed[..i];
  }

  /** Four tokens that all give a time fill entry 1, exit 1, entry 2 and exit 2, and nothing else. */
  lemma FourTokensFill(parsed: seq<Option<ClockTime>>)
    requires |parsed| == 4 && parsed[0].Some? && parsed[1].Some? && parsed[2].Some? && parsed[3].Some?
    ensures Fill(parsed).entries ==
      map[EntrySlot(1) := MinuteOfDay(parsed[0].value), ExitSlot(1) := MinuteOfDay(parsed[1].value),
          EntrySlot(2) := MinuteOfDay(parsed[2].value), ExitSlot(2) := MinuteOfDay(parsed[3].value)]
  {
    assert parsed[..0] == [];
    FillStep(parsed, 0);
    FillStep(parsed, 1);
    FillStep(parsed, 2);
    FillStep(parsed, 3);
    assert parsed[..4] == parsed;
  }

  /** Four tokens that all give a time fill exactly the first two pairs, in order; pair 3 stays empty. */
  lemma FourTimesFillTwoPairs(times: seq<string>, date: CalDate, userId: string)
    requires |times| == 4 && forall k :: 0 <= k < 4 ==> Token(times[k]).Some?
    ensures ToTimeClockData(AssignSlots(times).entries, date, userId) ==
      TimeClockData(date,
        Some(MinuteOfDay(Token(times[0]).value)), Some(MinuteOfDay(Token(times[1]).value)),
        Some(MinuteOfDay(Token(times[2]).value)), Some(MinuteOfDay(Token(times[3]).value)),
        None, None, false, false, userId)
  {
    var parsed := Tokens(times);
    assert parsed[0].Some? && parsed[1].Some? && parsed[2].Some? && parsed[3].Some?;
    FourTokensFill(parsed);
    TwoPairsDay(AssignSlots(times).entries, MinuteOfDay(parsed[0].value), MinuteOfDay(parsed[1].value),
                MinuteOfDay(parsed[2].value), MinuteOfDay(parsed[3].value), date, userId);
  }

  /** Entry 1, exit 1, entry 2 and exit 2 filled, and nothing else, make a day of two pairs. */
  lemma TwoPairsDay(m: map<PunchSlot, int>, a: int, b: int, c: int, d: int, date: CalDate, userId: string)
    requires m == map[EntrySlot(1) := a, ExitSlot(1) := b, EntrySlot(2) := c, ExitSlot(2) := d]
    ensures ToTimeClockData(m, date, userId) == TimeClockData(date, Some(a), Some(b), Some(c), Some(d), None, None, false, false, userId)
  {
  }

  /** The tokens `08:00 12:00 13:00 18:00` make the day 08:00-12:00 and 13:00-18:00, with no third pair. */
  lemma StandardDayRecord(date: CalDate, userId: string)
    ensures ToTimeClockData(AssignSlots(["08:00", "12:00", "13:00", "18:00"]).entries, date, userId) ==
      TimeClockData(date, Some(480), Some(720), Some(780), Some(1080), None, None, false, false, userId)
  {
    var times := ["08:00", "12:00", "13:00", "18:00"];
    StandardDayTokens();
    FourClockTimes(times, ClockTime(8, 0), ClockTime(12, 0), ClockTime(13, 0), ClockTime(18, 0), date, userId);
  }

  /** Four tokens with known times fill the two pairs with those times' minutes of the day. */
  lemma FourClockTimes(times: seq<string>, a: ClockTime, b: ClockTime, c: ClockTime, d: ClockTime, date: CalDate, userId: string)
    requires |times| == 4
    requires Token(times[0]) == Some(a) && Token(times[1]) == Some(b) && Token(times[2]) == Some(c) && Token(times[3]) == Some(d)
    ensures ToTimeClockData(AssignSlots(times).entries, date, userId) ==
      TimeClockData(date, Some(MinuteOfDay(a)), Some(MinuteOfDay(b)), Some(MinuteOfDay(c)), Some(MinuteOfDay(d)),
                    None, None, false, false, userId)
  {
    FourTimesFillTwoPairs(times, date, userId);
  }

  /**
   * A standard day `08:00 12:00 13:00 18:00` under the statutory rules with
   * no configuration: two pairs of 4 and 5 hours, 9 worked hours of which 8
   * are regular and 1 is extra, no night hours.
   */
  lemma StandardDayScenario(date: CalDate, userId: string)
    ensures var tc := ToTimeClockData(AssignSlots(["08:00", "12:00", "13:00", "18:00"]).entries, date, userId);
      var r := CltStrategy.CalculateExtraHours(tc, EmptyConfig);
      r.totalHours == 9.0 && r.extraHours == 1.0 && r.breakdown[0].regularHours == 8.0 && r.nightHours == 0.0
  {
    StandardDayRecord(date, userId);
    CltStrategy.TwoDaytimePairs(TimeClockData(date, Some(480), Some(720), Some(780), Some(1080), None, None, false, false, userId));
  }

  // =====================================================================
  // Rows

  /** A record from a text line, or a spreadsheet row as a map from column title to cell text. */
  datatype Row = TxtRow(record: RawRecord) | SheetRow(cells: map<string, string>)

  /** A cell's text; a missing cell reads as empty, which JavaScript treats as false. */
  function Cell(cells: map<string, string>, key: string): string
  {
    if key in cells then cells[key] else ""
  }

  /** The filled cells under `keys`, in the order of `keys`. */
  function FilledCells(cells: map<string, string>, keys: seq<string>): (r: seq<string>)
    ensures |r| <= |keys|
    ensures forall k :: 0 <= k < |r| ==> r[k] != ""
  {
    if keys == [] then []
    else
      var init := FilledCells(cells, keys[..|keys| - 1]);
      var v := Cell(cells, keys[|keys| - 1]);
      if v != "" then init + [v] else init
  }

  /** The first filled cell under `keys`, or empty. */
  function FirstFilled(cells: map<string, string>, keys: seq<string>): (r: string)
    ensures r == "" || exists k :: 0 <= k < |keys| && r == Cell(cells, keys[k])
  {
    if keys == [] then ""
    else if Cell(cells, keys[0]) != "" then Cell(cells, keys[0])
    else
      var r := FirstFilled(cells, keys[1..]);
      assert r == "" || exists k :: 1 <= k < |keys| && r == Cell(cells, keys[k]) by {
        if r != "" {
          var k :| 0 <= k < |keys[1..]| && r == Cell(cells, keys[1..][k]);
          assert keys[1..][k] == keys[k + 1];
        }
      }
      r
  }

  /** The columns tried for the employee identifier, in order. */
  const IdKeys: seq<string> := ["employeeId", "pis", "matricula", "PIS", "Matr\U{00ED}cula"]

  /** The columns `extractTimesFromRow` reads, in order. */
  const TimeKeys: seq<string> := [
    "entrada1", "saida1", "entrada2", "saida2", "entrada3", "saida3",
    "entry1", "exit1", "entry2", "exit2", "entry3", "exit3",
    "Entrada1", "Sa\U{00ED}da1", "Entrada2", "Sa\U{00ED}da2"]

  /** `extractTimesFromRow`: push every filled time column, in column order. */
  method ExtractTimesFromRow(cells: map<string, string>) returns (times: seq<string>)
    ensures times == FilledCells(cells, TimeKeys)
  {
    times := [];
    var i := 0;
    while i < |TimeKeys|
      invariant 0 <= i <= |TimeKeys|
      invariant times == FilledCells(cells, TimeKeys[..i])
    {
      FilledCellsStep(cells, TimeKeys, i);
      var key := TimeKeys[i];
      if key in cells && cells[key] != "" {
        times := times + [cells[key]];
      }
      i := i + 1;
    }
    WholePrefix(TimeKeys);
  }

  /** `FilledCells` over one more key adds that key's cell when it is filled. */
  lemma FilledCellsStep(cells: map<string, string>, keys: seq<string>, i: nat)
    requires i < |keys|
    ensures FilledCells(cells, keys[..i + 1]) ==
      FilledCells(cells, keys[..i]) + (if Cell(cells, keys[i]) != "" then [Cell(cells, keys[i])] else [])
  {
    assert keys[..i + 1][..i] == keys[..i];
  }

  /** `row.employeeId || row.pis || row.matricula || row['PIS'] || row['Matrícula']`. */
  function EmployeeIdOf(row: Row): string
  {
    match row
    case TxtRow(r) => r.employeeId
    case SheetRow(cells) => FirstFilled(cells, IdKeys)
  }

  /** A text cell iterated as an array: one token per character. */
  function CharTokens(s: string): (r: seq<string>)
    ensures |r| == |s| && forall k :: 0 <= k < |s| ==> r[k] == [s[k]]
  {
    if s == [] then [] else [[s[0]]] + CharTokens(s[1..])
  }

  /** `row.times || extractTimesFromRow(row)`. */
  function TimesOf(row: Row): seq<string>
  {
    match row
    case TxtRow(r) => r.times
    case SheetRow(cells) =>
      if Cell(cells, "times") != "" then CharTokens(Cell(cells, "times")) else FilledCells(cells, TimeKeys)
  }

  /**
   * `row.date ? new Date(row.date) : (row.data ? parseDate(row.data) : new Date())`:
   * a text record carries its parsed date; a spreadsheet row reads its `date`
   * cell with the JavaScript parser, else parses its `data` cell, else uses today.
   */
  function DateOf(row: Row, today: CalDate, jsDate: string -> CalDate): Result<CalDate, LineError>
  {
    match row
    case TxtRow(r) => Ok(r.date)
    case SheetRow(cells) =>
      if Cell(cells, "date") != "" then Ok(jsDate(Cell(cells, "date")))
      else if Cell(cells, "data") != "" then ParseDate(Cell(cells, "data"))
      else Ok(today)
  }

  // =====================================================================
  // processTimeClockRecord

  datatype ProcessError = MissingEmployeeId | UnknownEmployee(employeeId: string) | BadDate(cause: LineError)

  /** A stored day: its punches, the computed figures and the file it came from. */
  datatype StoredDay = StoredDay(
    entry1: Option<int>, exit1: Option<int>,
    entry2: Option<int>, exit2: Option<int>,
    entry3: Option<int>, exit3: Option<int>,
    totalHours: real, extraHours: real, nightHours: real, holidayHours: real,
    sourceFile: Option<string>)

  datatype ProcessedRecord = ProcessedRecord(
    userId: string, employeeId: string, employeeName: string, date: CalDate, totalHours: real, extraHours: real)

  /** The stored days, keyed by (user id, date), and the ledger. */
  datatype ImportState = ImportState(timeClocks: map<(string, CalDate), StoredDay>, ledger: Ledger)

  datatype Processed = Processed(after: ImportState, result: Result<ProcessedRecord, ProcessError>)

  /** An update leaves a field alone when the new value is undefined. */
  function Keep<T>(update: Option<T>, previous: Option<T>): Option<T>
  {
    if update.Some? then update else previous
  }

  /** The upsert: create the day, or overwrite the figures and every defined punch of the stored one. */
  function Upsert(previous: Option<StoredDay>, tc: TimeClockData, calculation: ExtraHoursResult, sourceFile: Option<string>): StoredDay
  {
    match previous
    case None =>
      StoredDay(tc.entry1, tc.exit1, tc.entry2, tc.exit2, tc.entry3, tc.exit3,
        calculation.totalHours, calculation.extraHours, calculation.nightHours, calculation.holidayHours, sourceFile)
    case Some(d) =>
      StoredDay(Keep(tc.entry1, d.entry1), Keep(tc.exit1, d.exit1), Keep(tc.entry2, d.entry2),
        Keep(tc.exit2, d.exit2), Keep(tc.entry3, d.entry3), Keep(tc.exit3, d.exit3),
        calculation.totalHours, calculation.extraHours, calculation.nightHours, calculation.holidayHours, Keep(sourceFile, d.sourceFile))
  }

  function DigitChar(n: nat): char
    requires n < 10
  {
    ('0' as int + n) as char
  }

  function NatString(n: nat): string
  {
    if n < 10 then [DigitChar(n)] else NatString(n / 10) + [DigitChar(n % 10)]
  }

  function IntString(n: int): string
  {
    if n < 0 then "-" + NatString(-n) else NatString(n)
  }

  function Pad2(n: int): string
  {
    if 0 <= n < 10 then "0" + NatString(n) else IntString(n)
  }

  /** The ledger description of a day's overtime, with the date written dd/mm/yyyy. */
  function OvertimeDescription(date: CalDate): string
  {
    "Horas extras calculadas em " + Pad2(date.day) + "/" + Pad2(date.month) + "/" + IntString(date.year)
  }

  /**
   * `processTimeClockRecord`: the date is worked out first (a bad `data` cell
   * fails here), then an empty identifier and an unknown employee fail; no
   * failure changes anything. Otherwise the day is computed with the empty
   * configuration, upserted under (user, date), and, only when its extra
   * hours are positive, credited to the ledger with exactly that amount.
   */
  function ProcessStep(st: ImportState, users: map<string, User>, strategies: seq<RuleEngine.Strategy>,
                       row: Row, sourceFile: Option<string>, today: CalDate, jsDate: string -> CalDate, now: int): Processed
  {
    var date := DateOf(row, today, jsDate);
    var employeeId := EmployeeIdOf(row);
    if date.Err? then Processed(st, Err(BadDate(date.error)))
    else if employeeId == "" then Processed(st, Err(MissingEmployeeId))
    else if employeeId !in users then Processed(st, Err(UnknownEmployee(employeeId)))
    else StoreStep(st, users[employeeId], date.value, TimesOf(row), strategies, sourceFile, now)
  }

  /**
   * The rest of a record once its user and date are known: the day from the
   * time tokens, the engine's calculation, the upsert under (user, date),
   * and a ledger credit of exactly the extra hours when they are positive.
   */
  function StoreStep(st: ImportState, user: User, date: CalDate, times: seq<string>, strategies: seq<RuleEngine.Strategy>,
                     sourceFile: Option<string>, now: int): Processed
  {
    var tc := ToTimeClockData(AssignSlots(times).entries, date, user.id);
    var calculation := RuleEngine.Select(strategies, tc, EmptyConfig);
    var key := (user.id, date);
    var day := Upsert(if key in st.timeClocks then Some(st.timeClocks[key]) else None, tc, calculation, sourceFile);
    var ledger :=
      if calculation.extraHours > 0.0 then Recorded(st.ledger, user.id, Entry, calculation.extraHours, OvertimeDescription(date), now)
      else st.ledger;
    Processed(
      ImportState(st.timeClocks[key := day], ledger),
      Ok(ProcessedRecord(user.id, user.employeeId, user.name, date, day.totalHours, day.extraHours)))
  }

  // =====================================================================
  // The import loops

  datatype Failure = LineFailure(lineError: LineError) | RecordFailure(processError: ProcessError)

  /** A text line's error carries its number and its first 100 characters; a sheet row's, its row number. */
  datatype ErrorDetail =
    | LineErrorDetail(line: nat, content: string, failure: Failure)
    | RowErrorDetail(row: nat, failure: Failure)

  /** The state of an import after some lines, with the header count it skipped. */
  datatype ImportRun = ImportRun(state: ImportState, records: seq<ProcessedRecord>, errors: seq<ErrorDetail>, headers: nat)

  datatype ImportSummary = ImportSummary(
    imported: nat, errors: nat, records: seq<ProcessedRecord>, errorDetails: seq<ErrorDetail>, totalLines: Option<nat>)

  datatype ImportError = EmptyFile | NoValidLines | UnsupportedFormat

  const PreviewSize: nat := 10
  const ContentPreview: nat := 100

  /**
   * `content.split(/\r?\n/).filter(line => line.trim())`. A `\r` before the
   * `\n` is white space that `trim` removes, so splitting at `\n` alone
   * yields the same lines once trimmed.
   */
  function NonBlankLines(pieces: seq<string>): (r: seq<string>)
    ensures |r| <= |pieces|
    ensures forall k :: 0 <= k < |r| ==> !IsBlank(r[k])
  {
    if pieces == [] then []
    else if IsBlank(pieces[0]) then NonBlankLines(pieces[1..])
    else [pieces[0]] + NonBlankLines(pieces[1..])
  }

  function Lines(content: string): seq<string>
  {
    NonBlankLines(Split(content, '\n'))
  }

  /** A failed line: its number, its first 100 characters and the failure go after the earlier errors. */
  function AddLineError(run: ImportRun, lineNumber: nat, l: string, f: Failure): (r: ImportRun)
    ensures r.state == run.state && r.records == run.records && r.headers == run.headers
    ensures |r.errors| == |run.errors| + 1 && r.errors == run.errors + [r.errors[|run.errors|]]
    ensures r.errors[|run.errors|].LineErrorDetail? && r.errors[|run.errors|].line == lineNumber
    ensures |r.errors[|run.errors|].content| <= ContentPreview
  {
    run.(errors := run.errors + [LineErrorDetail(lineNumber, Substring(l, 0, ContentPreview), f)])
  }

  /** A processed line: the new state, and its record or its error. */
  function AddOutcome(run: ImportRun, p: Processed, lineNumber: nat, l: string): ImportRun
  {
    match p.result
    case Err(pe) => AddLineError(run.(state := p.after), lineNumber, l, RecordFailure(pe))
    case Ok(rec) => run.(state := p.after, records := run.records + [rec])
  }

  /** One iteration of the text loop, for the trimmed line number `lineNumber`. */
  function TxtLineStep(run: ImportRun, users: map<string, User>, strategies: seq<RuleEngine.Strategy>,
                       line: string, lineNumber: nat, sourceFile: Option<string>, today: CalDate,
                       jsDate: string -> CalDate, now: int): ImportRun
  {
    var l := Trim(line);
    if l == [] then run
    else if IsHeader(l) then run.(headers := run.headers + 1)
    else
      match ParseTxtLine(l, lineNumber)
      case Err(e) => AddLineError(run, lineNumber, l, LineFailure(e))
      case Ok(raw) =>
        AddOutcome(run, ProcessStep(run.state, users, strategies, TxtRow(raw), sourceFile, today, jsDate, now), lineNumber, l)
  }

  /** The text loop over `lines`, numbered from 1. */
  function TxtRun(st: ImportState, users: map<string, User>, strategies: seq<RuleEngine.Strategy>,
                  lines: seq<string>, sourceFile: Option<string>, today: CalDate,
                  jsDate: string -> CalDate, now: int): ImportRun
  {
    if lines == [] then ImportRun(st, [], [], 0)
    else
      TxtLineStep(TxtRun(st, users, strategies, lines[..|lines| - 1], sourceFile, today, jsDate, now),
                  users, strategies, lines[|lines| - 1], |lines|, sourceFile, today, jsDate, now)
  }

  /** The text loop over one more line is one more iteration. */
  lemma TxtRunStep(st: ImportState, users: map<string, User>, strategies: seq<RuleEngine.Strategy>,
                   lines: seq<string>, i: nat, sourceFile: Option<string>, today: CalDate,
                   jsDate: string -> CalDate, now: int)
    requires i < |lines|
    ensures TxtRun(st, users, strategies, lines[..i + 1], sourceFile, today, jsDate, now) ==
      TxtLineStep(TxtRun(st, users, strategies, lines[..i], sourceFile, today, jsDate, now),
                  users, strategies, lines[i], i + 1, sourceFile, today, jsDate, now)
  {
    assert lines[..i + 1][..i] == lines[..i];
  }

  /** `importFromTxt` from the decoded content on. */
  function ImportTxt(st: ImportState, users: map<string, User>, strategies: seq<RuleEngine.Strategy>,
                     content: string, sourceFile: Option<string>, today: CalDate,
                     jsDate: string -> CalDate, now: int): (ImportState, Result<ImportSummary, ImportError>)
  {
    if IsBlank(content) then (st, Err(EmptyFile))
    else
      var lines := Lines(content);
      if |lines| == 0 then (st, Err(NoValidLines))
      else
        var run := TxtRun(st, users, strategies, lines, sourceFile, today, jsDate, now);
        (run.state, Ok(SummaryOf(run, |lines|)))
  }

  /** The three outcomes of `importFromTxt`: empty content, no lines, or the summary of the run over the lines. */
  lemma ImportTxtCases(st: ImportState, users: map<string, User>, strategies: seq<RuleEngine.Strategy>,
                       content: string, sourceFile: Option<string>, today: CalDate,
                       jsDate: string -> CalDate, now: int)
    ensures var out := ImportTxt(st, users, strategies, content, sourceFile, today, jsDate, now);
      var lines := Lines(content);
      if IsBlank(content) then out == (st, Err(EmptyFile))
      else if |lines| == 0 then out == (st, Err(NoValidLines))
      else
        var run := TxtRun(st, users, strategies, lines, sourceFile, today, jsDate, now);
        out == (run.state, Ok(SummaryOf(run, |lines|)))
  {
  }

  /** One iteration of the spreadsheet loop: row `index` (0-based) reports as row index + 2. */
  function SheetRowStep(run: ImportRun, users: map<string, User>, strategies: seq<RuleEngine.Strategy>,
                        cells: map<string, string>, index: nat, sourceFile: Option<string>, today: CalDate,
                        jsDate: string -> CalDate, now: int): ImportRun
  {
    var p := ProcessStep(run.state, users, strategies, SheetRow(cells), sourceFile, today, jsDate, now);
    match p.result
    case Err(pe) => run.(state := p.after, errors := run.errors + [RowErrorDetail(index + 2, RecordFailure(pe))])
    case Ok(rec) => run.(state := p.after, records := run.records + [rec])
  }

  function SheetRun(st: ImportState, users: map<string, User>, strategies: seq<RuleEngine.Strategy>,
                    rows: seq<map<string, string>>, sourceFile: Option<string>, today: CalDate,
                    jsDate: string -> CalDate, now: int): ImportRun
  {
    if rows == [] then ImportRun(st, [], [], 0)
    else
      SheetRowStep(SheetRun(st, users, strategies, rows[..|rows| - 1], sourceFile, today, jsDate, now),
                   users, strategies, rows[|rows| - 1], |rows| - 1, sourceFile, today, jsDate, now)
  }

  lemma SheetRunStep(st: ImportState, users: map<string, User>, strategies: seq<RuleEngine.Strategy>,
                     rows: seq<map<string, string>>, i: nat, sourceFile: Option<string>, today: CalDate,
                     jsDate: string -> CalDate, now: int)
    requires i < |rows|
    ensures SheetRun(st, users, strategies, rows[..i + 1], sourceFile, today, jsDate, now) ==
      SheetRowStep(SheetRun(st, users, strategies, rows[..i], sourceFile, today, jsDate, now),
                   users, strategies, rows[i], i, sourceFile, today, jsDate, now)
  {
    assert rows[..i + 1][..i] == rows[..i];
  }

  datatype FileKind = TxtFile | SheetFile | OtherFile

  function KindOfExtension(ext: string): FileKind
  {
    if ext == "txt" then TxtFile else if ext == "xlsx" || ext == "xls" then SheetFile else OtherFile
  }

  /** `originalname.split('.').pop().toLowerCase()`, classified. */
  function FileKindOf(fileName: string): FileKind
  {
    var pieces := Split(fileName, '.');
    KindOfExtension(ToLower(pieces[|pieces| - 1]))
  }

  // =====================================================================
  // The service

  class TimeClockService {
    var timeClocks: map<(string, CalDate), StoredDay>
    const users: map<string, User>
    const engine: RuleEngine.Engine
    const ledger: HourBalanceService

    function State(): ImportState
      reads this, ledger
    {
      ImportState(timeClocks, ledger.State())
    }

    constructor (users: map<string, User>, engine: RuleEngine.Engine, ledger: HourBalanceService)
      ensures this.users == users && this.engine == engine && this.ledger == ledger
      ensures timeClocks == map[]
    {
      this.users := users;
      this.engine := engine;
      this.ledger := ledger;
      timeClocks := map[];
    }

    method ProcessTimeClockRecord(row: Row, sourceFile: Option<string>, today: CalDate, jsDate: string -> CalDate, now: int)
      returns (result: Result<ProcessedRecord, ProcessError>)
      requires engine.Valid()
      modifies this, ledger
      ensures Processed(State(), result) ==
        ProcessStep(old(State()), users, engine.Registered(), row, sourceFile, today, jsDate, now)
    {
      var date := DateOf(row, today, jsDate);
      var employeeId := EmployeeIdOf(row);
      if date.Err? {
        return Err(BadDate(date.error));
      }
      if employeeId == "" {
        return Err(MissingEmployeeId);
      }
      if employeeId !in users {
        return Err(UnknownEmployee(employeeId));
      }
      var user := users[employeeId];
      var times;
      if row.SheetRow? && Cell(row.cells, "times") == "" {
        times := ExtractTimesFromRow(row.cells);
      } else {
        times := TimesOf(row);
      }
      result := StoreRecord(user, date.value, times, sourceFile, now);
    }

    /** The day of `user` on `date` from the tokens `times`: calculate, upsert, and credit positive overtime. */
    method StoreRecord(user: User, date: CalDate, times: seq<string>, sourceFile: Option<string>, now: int)
      returns (result: Result<ProcessedRecord, ProcessError>)
      requires engine.Valid()
      modifies this, ledger
      ensures Processed(State(), result) == StoreStep(old(State()), user, date, times, engine.Registered(), sourceFile, now)
    {
      var entries := ParseTimeEntries(times);
      var tc := ToTimeClockData(entries, date, user.id);
      var calculation := engine.CalculateExtraHours(tc, EmptyConfig);
      var key := (user.id, date);
      var day := Upsert(if key in timeClocks then Some(timeClocks[key]) else None, tc, calculation, sourceFile);
      timeClocks := timeClocks[key := day];
      if calculation.extraHours > 0.0 {
        var _ := ledger.AddHours(user.id, calculation.extraHours, OvertimeDescription(date), now);
      }
      result := Ok(ProcessedRecord(user.id, user.employeeId, user.name, date, day.totalHours, day.extraHours));
    }

    /** One iteration of the text loop: skip a header, record a failure, or keep the processed record. */
    method ImportTxtLine(records: seq<ProcessedRecord>, errors: seq<ErrorDetail>, ghost headers: nat,
                         rawLine: string, lineNumber: nat, sourceFile: Option<string>, today: CalDate,
                         jsDate: string -> CalDate, now: int)
      returns (records': seq<ProcessedRecord>, errors': seq<ErrorDetail>, ghost headers': nat)
      requires engine.Valid()
      modifies this, ledger
      ensures ImportRun(State(), records', errors', headers') ==
        TxtLineStep(ImportRun(old(State()), records, errors, headers), users, engine.Registered(),
                    rawLine, lineNumber, sourceFile, today, jsDate, now)
    {
      ghost var run := ImportRun(State(), records, errors, headers);
      records', errors', headers' := records, errors, headers;
      var line := Trim(rawLine);
      if line == [] {
        TxtLineSkipped(run, users, engine.Registered(), rawLine, lineNumber, sourceFile, today, jsDate, now);
        return;
      }
      if IsHeader(line) {
        TxtLineSkipped(run, users, engine.Registered(), rawLine, lineNumber, sourceFile, today, jsDate, now);
        headers' := headers + 1;
        return;
      }
      var parsed := ParseTxtLine(line, lineNumber);
      if parsed.Err? {
        TxtLineUnparsed(run, users, engine.Registered(), rawLine, lineNumber, sourceFile, today, jsDate, now);
        errors' := errors + [LineErrorDetail(lineNumber, Substring(line, 0, ContentPreview), LineFailure(parsed.error))];
        return;
      }
      TxtLineParsed(run, users, engine.Registered(), rawLine, lineNumber, sourceFile, today, jsDate, now);
      records', errors' := ImportTxtRecord(records, errors, headers, line, parsed.value, lineNumber, sourceFile, today, jsDate, now);
    }

    /** The record branch of the text loop: process the parsed line, then keep its record or its failure. */
    method ImportTxtRecord(records: seq<ProcessedRecord>, errors: seq<ErrorDetail>, ghost headers: nat,
                           line: string, raw: RawRecord, lineNumber: nat, sourceFile: Option<string>, today: CalDate,
                           jsDate: string -> CalDate, now: int)
      returns (records': seq<ProcessedRecord>, errors': seq<ErrorDetail>)
      requires engine.Valid()
      modifies this, ledger
      ensures ImportRun(State(), records', errors', headers) ==
        AddOutcome(ImportRun(old(State()), records, errors, headers),
                   ProcessStep(old(State()), users, engine.Registered(), TxtRow(raw), sourceFile, today, jsDate, now),
                   lineNumber, line)
    {
      var processed := ProcessTimeClockRecord(TxtRow(raw), sourceFile, today, jsDate, now);
      records', errors' := records, errors;
      if processed.Err? {
        errors' := errors + [LineErrorDetail(lineNumber, Substring(line, 0, ContentPreview), RecordFailure(processed.error))];
      } else {
        records' := records + [processed.value];
      }
    }

    method ImportFromTxt(content: string, sourceFile: Option<string>, today: CalDate, jsDate: string -> CalDate, now: int)
      returns (result: Result<ImportSummary, ImportError>)
      requires engine.Valid()
      modifies this, ledger
      ensures (State(), result) == ImportTxt(old(State()), users, engine.Registered(), content, sourceFile, today, jsDate, now)
    {
      ImportTxtCases(State(), users, engine.Registered(), content, sourceFile, today, jsDate, now);
      if IsBlank(content) {
        return Err(EmptyFile);
      }
      var lines := Lines(content);
      if |lines| == 0 {
        return Err(NoValidLines);
      }
      var records, errors, headers := RunTxtLines(lines, sourceFile, today, jsDate, now);
      result := Ok(ImportSummary(|records|, |errors|, Take(records, PreviewSize), Take(errors, PreviewSize), Some(|lines|)));
    }

    /** The loop of `importFromTxt` over the non-blank lines, numbered from 1. */
    method RunTxtLines(lines: seq<string>, sourceFile: Option<string>, today: CalDate, jsDate: string -> CalDate, now: int)
      returns (records: seq<ProcessedRecord>, errors: seq<ErrorDetail>, ghost headers: nat)
      requires engine.Valid()
      modifies this, ledger
      ensures ImportRun(State(), records, errors, headers) ==
        TxtRun(old(State()), users, engine.Registered(), lines, sourceFile, today, jsDate, now)
    {
      records, errors, headers := [], [], 0;
      ghost var start := State();
      var i := 0;
      while i < |lines|
        invariant 0 <= i <= |lines|
        invariant ImportRun(State(), records, errors, headers) ==
          TxtRun(start, users, engine.Registered(), lines[..i], sourceFile, today, jsDate, now)
      {
        TxtRunStep(start, users, engine.Registered(), lines, i, sourceFile, today, jsDate, now);
        records, errors, headers := ImportTxtLine(records, errors, headers, lines[i], i + 1, sourceFile, today, jsDate, now);
        i := i + 1;
      }
      WholePrefix(lines);
    }

    method ImportFromSheet(rows: seq<map<string, string>>, sourceFile: Option<string>, today: CalDate,
                           jsDate: string -> CalDate, now: int)
      returns (summary: ImportSummary)
      requires engine.Valid()
      modifies this, ledger
      ensures var run := SheetRun(old(State()), users, engine.Registered(), rows, sourceFile, today, jsDate, now);
        State() == run.state
        && summary == ImportSummary(|run.records|, |run.errors|, Take(run.records, PreviewSize), Take(run.errors, PreviewSize), None)
    {
      var importedRecords: seq<ProcessedRecord> := [];
      var errors: seq<ErrorDetail> := [];
      ghost var start := State();
      var i := 0;
      while i < |rows|
        invariant 0 <= i <= |rows|
        invariant ImportRun(State(), importedRecords, errors, 0) ==
          SheetRun(start, users, engine.Registered(), rows[..i], sourceFile, today, jsDate, now)
      {
        SheetRunStep(start, users, engine.Registered(), rows, i, sourceFile, today, jsDate, now);
        var record := ProcessTimeClockRecord(SheetRow(rows[i]), sourceFile, today, jsDate, now);
        if record.Err? {
          errors := errors + [RowErrorDetail(i + 2, RecordFailure(record.error))];
        } else {
          importedRecords := importedRecords + [record.value];
        }
        i := i + 1;
      }
      WholePrefix(rows);
      summary := ImportSummary(|importedRecords|, |errors|, Take(importedRecords, PreviewSize), Take(errors, PreviewSize), None);
    }

    /** `importFromFile`: the extension, ignoring case, picks the importer; any other extension is refused. */
    method ImportFromFile(fileName: string, content: string, rows: seq<map<string, string>>,
                          sourceFile: Option<string>, today: CalDate, jsDate: string -> CalDate, now: int)
      returns (result: Result<ImportSummary, ImportError>)
      requires engine.Valid()
      modifies this, ledger
      ensures FileKindOf(fileName) == OtherFile ==> result == Err(UnsupportedFormat) && State() == old(State())
      ensures FileKindOf(fileName) == TxtFile ==>
        (State(), result) == ImportTxt(old(State()), users, engine.Registered(), content, sourceFile, today, jsDate, now)
      ensures FileKindOf(fileName) == SheetFile ==>
        var run := SheetRun(old(State()), users, engine.Registered(), rows, sourceFile, today, jsDate, now);
        State() == run.state
        && result == Ok(ImportSummary(|run.records|, |run.errors|, Take(run.records, PreviewSize), Take(run.errors, PreviewSize), None))
    {
      var kind := FileKindOf(fileName);
      if kind == TxtFile {
        result := ImportFromTxt(content, sourceFile, today, jsDate, now);
      } else if kind == SheetFile {
        var summary := ImportFromSheet(rows, sourceFile, today, jsDate, now);
        result := Ok(summary);
      } else {
        result := Err(UnsupportedFormat);
      }
    }
  }
  // =====================================================================
  // Properties of the import

  /** Every piece of a split that is not among the non-blank lines is blank. */
  lemma {:induction false} NoLinesMeansBlankPieces(pieces: seq<string>)
    requires NonBlankLines(pieces) == []
    ensures forall k :: 0 <= k < |pieces| ==> AllSpace(pieces[k])
  {
    if pieces != [] {
      NoLinesMeansBlankPieces(pieces[1..]);
      BlankIffAllSpace(pieces[0]);
      forall k | 0 <= k < |pieces| ensures AllSpace(pieces[k]) {
        if k > 0 { assert pieces[k] == pieces[1..][k - 1]; }
      }
    }
  }

  /**
   * Content that is not blank always has a non-blank line, so the
   * "no valid line" error can never be raised: only the empty-file check can
   * abort a text import.
   */
  lemma NonBlankContentHasLines(content: string)
    requires !IsBlank(content)
    ensures |Lines(content)| >= 1
  {
    var pieces := Split(content, '\n');
    if |Lines(content)| == 0 {
      NoLinesMeansBlankPieces(pieces);
      JoinAllSpace(pieces, '\n');
      SplitJoin(content, '\n');
      BlankIffAllSpace(content);
      assert false;
    }
  }

  /** The outcome of a text import is either the empty-file error or a summary. */
  lemma ImportTxtOutcome(st: ImportState, users: map<string, User>, strategies: seq<RuleEngine.Strategy>,
                         content: string, sourceFile: Option<string>, today: CalDate,
                         jsDate: string -> CalDate, now: int)
    ensures ImportTxt(st, users, strategies, content, sourceFile, today, jsDate, now).1 == Err(EmptyFile) <==> IsBlank(content)
    ensures ImportTxt(st, users, strategies, content, sourceFile, today, jsDate, now).1 != Err(NoValidLines)
  {
    if !IsBlank(content) {
      NonBlankContentHasLines(content);
    }
  }

  /** A text error: numbered within the file's non-blank lines, with at most 100 characters of the line. */
  predicate WellNumbered(e: ErrorDetail, totalLines: nat)
  {
    e.LineErrorDetail? && 1 <= e.line <= totalLines && |e.content| <= ContentPreview
  }

  /** A blank line changes nothing and a header is only counted. */
  lemma TxtLineSkipped(run: ImportRun, users: map<string, User>, strategies: seq<RuleEngine.Strategy>,
                       line: string, lineNumber: nat, sourceFile: Option<string>, today: CalDate,
                       jsDate: string -> CalDate, now: int)
    requires Trim(line) == [] || IsHeader(Trim(line))
    ensures TxtLineStep(run, users, strategies, line, lineNumber, sourceFile, today, jsDate, now) ==
      if Trim(line) == [] then run else run.(headers := run.headers + 1)
  {
  }

  /** A line that does not parse is recorded as its parse failure. */
  lemma TxtLineUnparsed(run: ImportRun, users: map<string, User>, strategies: seq<RuleEngine.Strategy>,
                        line: string, lineNumber: nat, sourceFile: Option<string>, today: CalDate,
                        jsDate: string -> CalDate, now: int)
    requires Trim(line) != [] && !IsHeader(Trim(line)) && ParseTxtLine(Trim(line), lineNumber).Err?
    ensures TxtLineStep(run, users, strategies, line, lineNumber, sourceFile, today, jsDate, now) ==
      AddLineError(run, lineNumber, Trim(line), LineFailure(ParseTxtLine(Trim(line), lineNumber).error))
  {
  }

  /** A line that parses is recorded as the outcome of processing its record. */
  lemma TxtLineParsed(run: ImportRun, users: map<string, User>, strategies: seq<RuleEngine.Strategy>,
                      line: string, lineNumber: nat, sourceFile: Option<string>, today: CalDate,
                      jsDate: string -> CalDate, now: int)
    requires Trim(line) != [] && !IsHeader(Trim(line)) && ParseTxtLine(Trim(line), lineNumber).Ok?
    ensures TxtLineStep(run, users, strategies, line, lineNumber, sourceFile, today, jsDate, now) ==
      AddOutcome(run, ProcessStep(run.state, users, strategies, TxtRow(ParseTxtLine(Trim(line), lineNumber).value),
                                  sourceFile, today, jsDate, now), lineNumber, Trim(line))
  {
  }

  /** One non-blank line adds exactly one header, record or error; an error carries that line's number. */
  lemma TxtLineAccounting(run: ImportRun, users: map<string, User>, strategies: seq<RuleEngine.Strategy>,
                          line: string, lineNumber: nat, sourceFile: Option<string>, today: CalDate,
                          jsDate: string -> CalDate, now: int)
    requires !IsBlank(line)
    ensures var after := TxtLineStep(run, users, strategies, line, lineNumber, sourceFile, today, jsDate, now);
      && after.headers + |after.records| + |after.errors| == run.headers + |run.records| + |run.errors| + 1
      && AppendsLineError(run.errors, after.errors, lineNumber)
  {
    var l := Trim(line);
    if !IsHeader(l) {
      match ParseTxtLine(l, lineNumber)
      case Err(e) =>
      case Ok(raw) =>
        var p := ProcessStep(run.state, users, strategies, TxtRow(raw), sourceFile, today, jsDate, now);
        AddOutcomeAccounting(run, p, lineNumber, l);
    }
  }

  /** A processed line adds exactly one record or one error, and an error carries the line's number. */
  lemma AddOutcomeAccounting(run: ImportRun, p: Processed, lineNumber: nat, l: string)
    ensures var after := AddOutcome(run, p, lineNumber, l);
      && after.headers == run.headers
      && |after.records| + |after.errors| == |run.records| + |run.errors| + 1
      && AppendsLineError(run.errors, after.errors, lineNumber)
  {
  }

  /** `after` is `before`, or `before` with one error of line `lineNumber`, holding at most 100 characters, appended. */
  predicate AppendsLineError(before: seq<ErrorDetail>, after: seq<ErrorDetail>, lineNumber: nat)
  {
    after == before
    || (&& |after| == |before| + 1
        && after == before + [after[|before|]]
        && after[|before|].LineErrorDetail? && after[|before|].line == lineNumber
        && |after[|before|].content| <= ContentPreview)
  }

  /** Errors numbered within `n` lines, extended by errors of line `n + 1`, are numbered within `n + 1` lines. */
  lemma ErrorsStayNumbered(before: seq<ErrorDetail>, after: seq<ErrorDetail>, n: nat, lineNumber: nat)
    requires lineNumber == n + 1
    requires forall k :: 0 <= k < |before| ==> WellNumbered(before[k], n)
    requires AppendsLineError(before, after, lineNumber)
    ensures forall k :: 0 <= k < |after| ==> WellNumbered(after[k], lineNumber)
  {
    forall k | 0 <= k < |after| ensures WellNumbered(after[k], lineNumber) {
      if k < |before| {
        assert after[k] == before[k];
      }
    }
  }

  /** The text loop's last line, when not blank, adds exactly one header, record or error, numbered as that line. */
  lemma TxtRunLastLine(st: ImportState, users: map<string, User>, strategies: seq<RuleEngine.Strategy>,
                       lines: seq<string>, sourceFile: Option<string>, today: CalDate,
                       jsDate: string -> CalDate, now: int)
    requires lines != [] && !IsBlank(lines[|lines| - 1])
    ensures var before := TxtRun(st, users, strategies, lines[..|lines| - 1], sourceFile, today, jsDate, now);
      var after := TxtRun(st, users, strategies, lines, sourceFile, today, jsDate, now);
      && after.headers + |after.records| + |after.errors| == before.headers + |before.records| + |before.errors| + 1
      && AppendsLineError(before.errors, after.errors, |lines|)
  {
    var n := |lines| - 1;
    var before := TxtRun(st, users, strategies, lines[..n], sourceFile, today, jsDate, now);
    TxtLineAccounting(before, users, strategies, lines[n], n + 1, sourceFile, today, jsDate, now);
  }

  /** Over non-blank lines, each line is exactly one of a header, an imported record or an error. */
  lemma {:induction false} TxtCount(st: ImportState, users: map<string, User>, strategies: seq<RuleEngine.Strategy>,
                                    lines: seq<string>, sourceFile: Option<string>, today: CalDate,
                                    jsDate: string -> CalDate, now: int)
    requires forall k :: 0 <= k < |lines| ==> !IsBlank(lines[k])
    ensures var run := TxtRun(st, users, strategies, lines, sourceFile, today, jsDate, now);
      run.headers + |run.records| + |run.errors| == |lines|
  {
    if lines != [] {
      var n := |lines| - 1;
      var init := lines[..n];
      NonBlankInit(lines, n);
      TxtCount(st, users, strategies, init, sourceFile, today, jsDate, now);
      TxtRunLastLine(st, users, strategies, lines, sourceFile, today, jsDate, now);
    }
  }

  /** Of non-blank lines, the first `n` and line `n` are non-blank. */
  lemma NonBlankInit(lines: seq<string>, n: nat)
    requires n < |lines| && forall k :: 0 <= k < |lines| ==> !IsBlank(lines[k])
    ensures forall k :: 0 <= k < n ==> !IsBlank(lines[..n][k])
    ensures !IsBlank(lines[n])
  {
  }

  /** Every error of a text import carries its own line's number and at most 100 characters of it. */
  lemma {:induction false} TxtNumbering(st: ImportState, users: map<string, User>, strategies: seq<RuleEngine.Strategy>,
                                        lines: seq<string>, sourceFile: Option<string>, today: CalDate,
                                        jsDate: string -> CalDate, now: int)
    requires forall k :: 0 <= k < |lines| ==> !IsBlank(lines[k])
    ensures var run := TxtRun(st, users, strategies, lines, sourceFile, today, jsDate, now);
      forall k :: 0 <= k < |run.errors| ==> WellNumbered(run.errors[k], |lines|)
  {
    if lines != [] {
      var n := |lines| - 1;
      var init := lines[..n];
      NonBlankInit(lines, n);
      TxtNumbering(st, users, strategies, init, sourceFile, today, jsDate, now);
      var before := TxtRun(st, users, strategies, init, sourceFile, today, jsDate, now);
      var after := TxtRun(st, users, strategies, lines, sourceFile, today, jsDate, now);
      TxtRunLastLine(st, users, strategies, lines, sourceFile, today, jsDate, now);
      ErrorsStayNumbered(before.errors, after.errors, n, n + 1);
    }
  }

  /**
   * A text import that does not abort reports every non-blank line as a
   * header, an import or an error, and previews at most 10 records and 10
   * errors, the first ones in file order.
   */
  lemma ImportTxtSummary(st: ImportState, users: map<string, User>, strategies: seq<RuleEngine.Strategy>,
                         content: string, sourceFile: Option<string>, today: CalDate,
                         jsDate: string -> CalDate, now: int)
    requires !IsBlank(content)
    ensures var out := ImportTxt(st, users, strategies, content, sourceFile, today, jsDate, now);
      var run := TxtRun(st, users, strategies, Lines(content), sourceFile, today, jsDate, now);
      && out.1.Ok?
      && out.1.value.totalLines == Some(|Lines(content)|)
      && run.headers + out.1.value.imported + out.1.value.errors == |Lines(content)|
      && |out.1.value.records| <= PreviewSize && |out.1.value.errorDetails| <= PreviewSize
      && out.1.value.records <= run.records
      && out.1.value.errorDetails <= run.errors
      && forall k :: 0 <= k < |out.1.value.errorDetails| ==> WellNumbered(out.1.value.errorDetails[k], |Lines(content)|)
  {
    var lines := Lines(content);
    var run := TxtRun(st, users, strategies, lines, sourceFile, today, jsDate, now);
    NonBlankContentHasLines(content);
    TxtCount(st, users, strategies, lines, sourceFile, today, jsDate, now);
    TxtNumbering(st, users, strategies, lines, sourceFile, today, jsDate, now);
    ImportTxtCases(st, users, strategies, content, sourceFile, today, jsDate, now);
    SummaryFacts(run, |lines|);
  }

  /** The summary `importFromTxt` returns for a finished run over `totalLines` lines. */
  function SummaryOf(run: ImportRun, totalLines: nat): ImportSummary
  {
    ImportSummary(|run.records|, |run.errors|, Take(run.records, PreviewSize), Take(run.errors, PreviewSize), Some(totalLines))
  }

  /** The summary counts every line once and previews the first records and errors. */
  lemma SummaryFacts(run: ImportRun, totalLines: nat)
    requires run.headers + |run.records| + |run.errors| == totalLines
    requires forall k :: 0 <= k < |run.errors| ==> WellNumbered(run.errors[k], totalLines)
    ensures var s := SummaryOf(run, totalLines);
      && s.totalLines == Some(totalLines)
      && run.headers + s.imported + s.errors == totalLines
      && |s.records| <= PreviewSize && |s.errorDetails| <= PreviewSize
      && s.records <= run.records
      && s.errorDetails <= run.errors
      && forall k :: 0 <= k < |s.errorDetails| ==> WellNumbered(s.errorDetails[k], totalLines)
  {
    var s := SummaryOf(run, totalLines);
    forall k | 0 <= k < |s.errorDetails| ensures WellNumbered(s.errorDetails[k], totalLines) {
      assert s.errorDetails[k] == run.errors[k];
    }
  }

  /** Spreadsheet rows: each row is imported or reported, under its sheet row number (index + 2). */
  lemma {:induction false} SheetAccounting(st: ImportState, users: map<string, User>, strategies: seq<RuleEngine.Strategy>,
                                           rows: seq<map<string, string>>, sourceFile: Option<string>, today: CalDate,
                                           jsDate: string -> CalDate, now: int)
    ensures var run := SheetRun(st, users, strategies, rows, sourceFile, today, jsDate, now);
      |run.records| + |run.errors| == |rows|
      && forall k :: 0 <= k < |run.errors| ==> run.errors[k].RowErrorDetail? && 2 <= run.errors[k].row <= |rows| + 1
  {
    if rows != [] {
      var n := |rows| - 1;
      SheetAccounting(st, users, strategies, rows[..n], sourceFile, today, jsDate, now);
      var before := SheetRun(st, users, strategies, rows[..n], sourceFile, today, jsDate, now);
      var after := SheetRun(st, users, strategies, rows, sourceFile, today, jsDate, now);
      forall k | 0 <= k < |after.errors|
        ensures after.errors[k].RowErrorDetail? && 2 <= after.errors[k].row <= |rows| + 1
      {
        if k < |before.errors| {
          assert after.errors[k] == before.errors[k];
        }
      }
    }
  }

  /**
   * A failed record changes nothing. The date is worked out before the
   * identifier is checked, so a row with a bad `data` cell reports the date
   * even when it also lacks an identifier; then a missing identifier, then
   * an unknown employee.
   */
  lemma ProcessFailures(st: ImportState, users: map<string, User>, strategies: seq<RuleEngine.Strategy>,
                        row: Row, sourceFile: Option<string>, today: CalDate, jsDate: string -> CalDate, now: int)
    ensures var p := ProcessStep(st, users, strategies, row, sourceFile, today, jsDate, now);
      && (p.result.Err? ==> p.after == st)
      && (DateOf(row, today, jsDate).Err? ==> p.result == Err(BadDate(DateOf(row, today, jsDate).error)))
      && (DateOf(row, today, jsDate).Ok? && EmployeeIdOf(row) == "" ==> p.result == Err(MissingEmployeeId))
      && (DateOf(row, today, jsDate).Ok? && EmployeeIdOf(row) != "" && EmployeeIdOf(row) !in users ==>
            p.result == Err(UnknownEmployee(EmployeeIdOf(row))))
      && (p.result.Ok? <==> DateOf(row, today, jsDate).Ok? && EmployeeIdOf(row) != "" && EmployeeIdOf(row) in users)
  {
  }

  /**
   * A processed record upserts the day under (user id, date), touching no
   * other day, and credits the ledger only when the statutory extra hours
   * are positive, with exactly that amount; otherwise the ledger is untouched.
   */
  lemma ProcessCreditsOvertime(st: ImportState, users: map<string, User>, strategies: seq<RuleEngine.Strategy>,
                               row: Row, sourceFile: Option<string>, today: CalDate, jsDate: string -> CalDate, now: int)
    requires ProcessStep(st, users, strategies, row, sourceFile, today, jsDate, now).result.Ok?
    ensures var p := ProcessStep(st, users, strategies, row, sourceFile, today, jsDate, now);
      var user := users[EmployeeIdOf(row)];
      var date := DateOf(row, today, jsDate).value;
      var tc := ToTimeClockData(AssignSlots(TimesOf(row)).entries, date, user.id);
      var extra := CltStrategy.CalculateExtraHours(tc, EmptyConfig).extraHours;
      && p.after.timeClocks.Keys == st.timeClocks.Keys + {(user.id, date)}
      && (forall key :: key in st.timeClocks && key != (user.id, date) ==> p.after.timeClocks[key] == st.timeClocks[key])
      && p.after.timeClocks[(user.id, date)].extraHours == extra
      && p.result.value.extraHours == extra
      && (extra > 0.0 ==> p.after.ledger == Recorded(st.ledger, user.id, Entry, extra, OvertimeDescription(date), now))
      && (extra <= 0.0 ==> p.after.ledger == st.ledger)
  {
    var user := users[EmployeeIdOf(row)];
    var date := DateOf(row, today, jsDate).value;
    assert ProcessStep(st, users, strategies, row, sourceFile, today, jsDate, now)
      == StoreStep(st, user, date, TimesOf(row), strategies, sourceFile, now);
    StoreCreditsOvertime(st, user, date, TimesOf(row), strategies, sourceFile, now);
  }

  /** `StoreStep` upserts the day under (user, date) and credits exactly its positive extra hours. */
  lemma StoreCreditsOvertime(st: ImportState, user: User, date: CalDate, times: seq<string>,
                             strategies: seq<RuleEngine.Strategy>, sourceFile: Option<string>, now: int)
    ensures var p := StoreStep(st, user, date, times, strategies, sourceFile, now);
      var tc := ToTimeClockData(AssignSlots(times).entries, date, user.id);
      var extra := CltStrategy.CalculateExtraHours(tc, EmptyConfig).extraHours;
      && p.result.Ok?
      && p.after.timeClocks.Keys == st.timeClocks.Keys + {(user.id, date)}
      && (forall key :: key in st.timeClocks && key != (user.id, date) ==> p.after.timeClocks[key] == st.timeClocks[key])
      && p.after.timeClocks[(user.id, date)].extraHours == extra
      && p.result.value.extraHours == extra
      && (extra > 0.0 ==> p.after.ledger == Recorded(st.ledger, user.id, Entry, extra, OvertimeDescription(date), now))
      && (extra <= 0.0 ==> p.after.ledger == st.ledger)
  {
    var tc := ToTimeClockData(AssignSlots(times).entries, date, user.id);
    RuleEngine.StatutoryOtherwise(strategies, tc, EmptyConfig);
  }

  /**
   * Importing the same text record twice keeps one stored day but credits
   * its overtime twice: the upsert is idempotent, the ledger write is not.
   */
  lemma ReimportCreditsTwice(st: ImportState, users: map<string, User>, strategies: seq<RuleEngine.Strategy>,
                             raw: RawRecord, sourceFile: Option<string>, today: CalDate, jsDate: string -> CalDate,
                             t1: int, t2: int)
    requires ProcessStep(st, users, strategies, TxtRow(raw), sourceFile, today, jsDate, t1).result.Ok?
    ensures var p1 := ProcessStep(st, users, strategies, TxtRow(raw), sourceFile, today, jsDate, t1);
      var p2 := ProcessStep(p1.after, users, strategies, TxtRow(raw), sourceFile, today, jsDate, t2);
      var userId := p1.result.value.userId;
      var extra := p1.result.value.extraHours;
      && p2.result.Ok?
      && p2.after.timeClocks.Keys == p1.after.timeClocks.Keys
      && (extra > 0.0 ==> BalanceOf(p2.after.ledger, userId) == BalanceOf(st.ledger, userId) + 2.0 * extra)
  {
    var row := TxtRow(raw);
    ProcessCreditsOvertime(st, users, strategies, row, sourceFile, today, jsDate, t1);
    var p1 := ProcessStep(st, users, strategies, row, sourceFile, today, jsDate, t1);
    ProcessCreditsOvertime(p1.after, users, strategies, row, sourceFile, today, jsDate, t2);
    var user := users[EmployeeIdOf(row)];
    var date := DateOf(row, today, jsDate).value;
    var tc := ToTimeClockData(AssignSlots(TimesOf(row)).entries, date, user.id);
    var extra := CltStrategy.CalculateExtraHours(tc, EmptyConfig).extraHours;
    if extra > 0.0 {
      RecordedEffect(st.ledger, user.id, Entry, extra, OvertimeDescription(date), t1);
      RecordedEffect(p1.after.ledger, user.id, Entry, extra, OvertimeDescription(date), t2);
    }
  }

  /**
   * An update only overwrites the punches the new import defines: a slot the
   * new import leaves empty keeps its stored value, while the figures are
   * always replaced.
   */
  lemma UpsertKeepsUndefinedPunches(d: StoredDay, tc: TimeClockData, calculation: ExtraHoursResult, sourceFile: Option<string>)
    ensures var u := Upsert(Some(d), tc, calculation, sourceFile);
      && (tc.entry1.None? ==> u.entry1 == d.entry1) && (tc.exit1.None? ==> u.exit1 == d.exit1)
      && (tc.entry2.None? ==> u.entry2 == d.entry2) && (tc.exit2.None? ==> u.exit2 == d.exit2)
      && (tc.entry3.None? ==> u.entry3 == d.entry3) && (tc.exit3.None? ==> u.exit3 == d.exit3)
      && (tc.exit3.Some? ==> u.exit3 == tc.exit3)
      && u.totalHours == calculation.totalHours && u.extraHours == calculation.extraHours
  {
  }

  /** The extension after the last dot decides the importer, ignoring case. */
  lemma ExtensionDecides(base: string, ext: string)
    requires !HasChar(ext, '.')
    ensures FileKindOf(base + "." + ext) == KindOfExtension(ToLower(ext))
  {
    SplitLastPiece(base, ext, '.');
  }

  /** A name without a dot is its own extension. */
  lemma NameWithoutDot(fileName: string)
    requires !HasChar(fileName, '.')
    ensures FileKindOf(fileName) == KindOfExtension(ToLower(fileName))
  {
    SplitOfPiece(fileName, '.');
  }

  /** Upper-case extensions are accepted: `.TXT` reads as text, `.XLSX` and `.XLS` as spreadsheets. */
  lemma UpperCaseExtensions(base: string)
    ensures FileKindOf(base + ".TXT") == TxtFile
    ensures FileKindOf(base + ".XLSX") == SheetFile && FileKindOf(base + ".XLS") == SheetFile
    ensures FileKindOf(base + ".csv") == OtherFile
  {
    TextExtensions(base);
    SheetExtensions(base);
  }

  /** `.TXT` is read as text and `.csv` is not supported. */
  lemma TextExtensions(base: string)
    ensures FileKindOf(base + ".TXT") == TxtFile && FileKindOf(base + ".csv") == OtherFile
  {
    NamedExtension(base, ".TXT", "TXT", "txt");
    NamedExtension(base, ".csv", "csv", "csv");
  }

  /** `.XLSX` and `.XLS` are read as spreadsheets. */
  lemma SheetExtensions(base: string)
    ensures FileKindOf(base + ".XLSX") == SheetFile && FileKindOf(base + ".XLS") == SheetFile
  {
    NamedExtension(base, ".XLSX", "XLSX", "xlsx");
    NamedExtension(base, ".XLS", "XLS", "xls");
  }

  /** `base` followed by the suffix `suffix`, which is `.` and `ext`, is classified by `ext` lower-cased. */
  lemma NamedExtension(base: string, suffix: string, ext: string, lower: string)
    requires suffix == "." + ext && !HasChar(ext, '.') && ToLower(ext) == lower
    ensures FileKindOf(base + suffix) == KindOfExtension(lower)
  {
    AppendAssociative(base, ".", ext);
    ExtensionKind(base, ext, lower);
  }

  /** A name ending in `.` and an extension `ext` that lower-cases to `lower` is classified by `lower`. */
  lemma ExtensionKind(base: string, ext: string, lower: string)
    requires !HasChar(ext, '.') && ToLower(ext) == lower
    ensures FileKindOf(base + "." + ext) == KindOfExtension(lower)
  {
    ExtensionDecides(base, ext);
  }
}
