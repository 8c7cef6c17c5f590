/**
 * The pure string functions of the punch-file importer
 * (backend/src/time-clock/time-clock.service.ts): line layout detection
 * and field extraction (`parseTxtLine`), header recognition, the date
 * parser (`parseDate`), the time-token normaliser (`parseTimes`) and the
 * time parser (`parseTime`).
 *
 * Dates are calendar triples: the JavaScript `Date` built from them, its time
 * zone and its calendar validation are not modelled.
 */
module TimeParsing {
  import opened Common

  datatype CalDate = CalDate(year: int, month: int, day: int)

  /** An hour/minute pair as `parseTime` returns it (not range-checked: past 24h `setHours` rolls over, which is kept as minutes past the base midnight). */
  datatype ClockTime = ClockTime(hours: nat, minutes: nat)

  /** The errors a single line can raise while it is parsed. */
  datatype LineError =
    | UnrecognizedLineFormat(lineNumber: int)
    | InvalidDate(text: string)

  /** One parsed line: employee identifier, name hint, date and normalised time tokens. */
  datatype RawRecord = RawRecord(employeeId: string, employeeName: string, date: CalDate, times: seq<string>)

  // =====================================================================
  // parseDate

  /** The three layouts `parseDate` tries, in this order. */
  datatype DatePattern = DayMonthYearSlashed | YearMonthDayDashed | DayMonthYearCompact

  function PatternLength(p: DatePattern): nat
  {
    match p
    case DayMonthYearSlashed => 10
    case YearMonthDayDashed => 10
    case DayMonthYearCompact => 8
  }

  predicate DigitsAt(s: string, i: nat, n: nat)
  {
    i + n <= |s| && forall k :: i <= k < i + n ==> IsDigit(s[k])
  }

  /** The (unanchored) regular expression of pattern `p` matches `s` starting at index `i`. */
  predicate MatchesAt(s: string, p: DatePattern, i: nat)
  {
    i + PatternLength(p) <= |s| &&
    match p
    case DayMonthYearSlashed =>
      DigitsAt(s, i, 2) && s[i + 2] == '/' && DigitsAt(s, i + 3, 2) && s[i + 5] == '/' && DigitsAt(s, i + 6, 4)
    case YearMonthDayDashed =>
      DigitsAt(s, i, 4) && s[i + 4] == '-' && DigitsAt(s, i + 5, 2) && s[i + 7] == '-' && DigitsAt(s, i + 8, 2)
    case DayMonthYearCompact =>
      DigitsAt(s, i, 8)
  }

  /** The leftmost match of `p` at or after `i`, as `String.prototype.match` finds it. */
  function FindFrom(s: string, p: DatePattern, i: nat): (r: Option<nat>)
    ensures r.Some? ==> i <= r.value && MatchesAt(s, p, r.value)
    ensures r.Some? ==> forall j :: i <= j < r.value ==> !MatchesAt(s, p, j)
    ensures r.None? ==> forall j :: i <= j ==> !MatchesAt(s, p, j)
    decreases |s| - i
  {
    if i + PatternLength(p) > |s| then None
    else if MatchesAt(s, p, i) then Some(i)
    else FindFrom(s, p, i + 1)
  }

  /** The date the match of `p` at `i` denotes: its year, month and day fields (the source hands the whole text to `new Date` for YYYY-MM-DD). */
  function DateAt(s: string, p: DatePattern, i: nat): CalDate
    requires MatchesAt(s, p, i)
  {
    match p
    case DayMonthYearSlashed =>
      CalDate(DecimalValue(s[i + 6..i + 10]), DecimalValue(s[i + 3..i + 5]), DecimalValue(s[i..i + 2]))
    case YearMonthDayDashed =>
      CalDate(DecimalValue(s[i..i + 4]), DecimalValue(s[i + 5..i + 7]), DecimalValue(s[i + 8..i + 10]))
    case DayMonthYearCompact =>
      CalDate(DecimalValue(s[i + 4..i + 8]), DecimalValue(s[i + 2..i + 4]), DecimalValue(s[i..i + 2]))
  }

  ghost predicate NoDatePatternMatches(s: string)
  {
    forall p: DatePattern, j: nat :: !MatchesAt(s, p, j)
  }

  /** The first pattern that matches anywhere in `s`, in the fixed order. */
  function FirstMatchingPattern(s: string): (r: Option<(DatePattern, nat)>)
    ensures r.None? <==> NoDatePatternMatches(s)
    ensures r.Some? ==> MatchesAt(s, r.value.0, r.value.1)
  {
    match FindFrom(s, DayMonthYearSlashed, 0)
    case Some(i) => Some((DayMonthYearSlashed, i))
    case None =>
      match FindFrom(s, YearMonthDayDashed, 0)
      case Some(i) => Some((YearMonthDayDashed, i))
      case None =>
        match FindFrom(s, DayMonthYearCompact, 0)
        case Some(i) => Some((DayMonthYearCompact, i))
        case None =>
          NoPatternFound(s);
          None
  }

  lemma NoPatternFound(s: string)
    requires FindFrom(s, DayMonthYearSlashed, 0).None?
    requires FindFrom(s, YearMonthDayDashed, 0).None?
    requires FindFrom(s, DayMonthYearCompact, 0).None?
    ensures NoDatePatternMatches(s)
  {
    forall p: DatePattern, j: nat ensures !MatchesAt(s, p, j) {
      match p
      case DayMonthYearSlashed =>
      case YearMonthDayDashed =>
      case DayMonthYearCompact =>
    }
  }

  /** `parseDate`: the date of the first matching layout, or "Data inválida" if none matches. */
  function ParseDate(s: string): (r: Result<CalDate, LineError>)
    ensures r.Err? <==> NoDatePatternMatches(s)
    ensures r.Err? ==> r.error == InvalidDate(s)
  {
    match FirstMatchingPattern(s)
    case Some((p, i)) => Ok(DateAt(s, p, i))
    case None => Err(InvalidDate(s))
  }

  lemma DecimalValueTwo(a: char, b: char)
    requires IsDigit(a) && IsDigit(b)
    ensures DecimalValue([a, b]) == DigitValue(a) * 10 + DigitValue(b)
  {
    assert [a, b][..1] == [a];
    assert [a][..0] == [];
    assert DecimalValue([a]) == DecimalValue([]) * 10 + DigitValue(a);
    assert DecimalValue([a, b]) == DecimalValue([a]) * 10 + DigitValue(b);
  }

  /** A string of digits only matches no layout that needs a separator. */
  lemma DigitsOnlyHaveNoSeparators(s: string)
    requires AllDigits(s)
    ensures forall j: nat :: !MatchesAt(s, DayMonthYearSlashed, j) && !MatchesAt(s, YearMonthDayDashed, j)
  {
    forall j: nat ensures !MatchesAt(s, DayMonthYearSlashed, j) && !MatchesAt(s, YearMonthDayDashed, j) {
      if j + 10 <= |s| {
        assert IsDigit(s[j + 2]) && IsDigit(s[j + 4]);
      }
    }
  }

  /**
   * A date written DD/MM/YYYY and the same digits written DDMMYYYY parse to the
   * same calendar date: day, month and year taken from the same positions.
   */
  lemma SlashedAndCompactAgree(d: string, m: string, y: string)
    requires |d| == 2 && |m| == 2 && |y| == 4
    requires AllDigits(d) && AllDigits(m) && AllDigits(y)
    ensures ParseDate(d + "/" + m + "/" + y) == Ok(CalDate(DecimalValue(y), DecimalValue(m), DecimalValue(d)))
    ensures ParseDate(d + m + y) == Ok(CalDate(DecimalValue(y), DecimalValue(m), DecimalValue(d)))
  {
    SlashedParses(d, m, y);
    CompactParses(d, m, y);
  }

  lemma SlashedParses(d: string, m: string, y: string)
    requires |d| == 2 && |m| == 2 && |y| == 4
    requires AllDigits(d) && AllDigits(m) && AllDigits(y)
    ensures ParseDate(d + "/" + m + "/" + y) == Ok(CalDate(DecimalValue(y), DecimalValue(m), DecimalValue(d)))
  {
    var s := d + "/" + m + "/" + y;
    SlashedShape(d, m, y);
    assert FindFrom(s, DayMonthYearSlashed, 0) == Some(0);
  }

  /** `DD/MM/YYYY` puts its fields at 0, 3 and 6 and matches the slashed layout at 0. */
  lemma SlashedShape(d: string, m: string, y: string)
    requires |d| == 2 && |m| == 2 && |y| == 4
    requires AllDigits(d) && AllDigits(m) && AllDigits(y)
    ensures var s := d + "/" + m + "/" + y;
      s[0..2] == d && s[3..5] == m && s[6..10] == y && MatchesAt(s, DayMonthYearSlashed, 0)
  {
    var s := d + "/" + m + "/" + y;
    assert s[0..2] == d && s[3..5] == m && s[6..10] == y;
  }

  lemma CompactParses(d: string, m: string, y: string)
    requires |d| == 2 && |m| == 2 && |y| == 4
    requires AllDigits(d) && AllDigits(m) && AllDigits(y)
    ensures ParseDate(d + m + y) == Ok(CalDate(DecimalValue(y), DecimalValue(m), DecimalValue(d)))
  {
    var s := d + m + y;
    assert s[0..2] == d && s[2..4] == m && s[4..8] == y;
    assert AllDigits(s);
    DigitsOnlyHaveNoSeparators(s);
    assert FindFrom(s, DayMonthYearSlashed, 0).None?;
    assert FindFrom(s, YearMonthDayDashed, 0).None?;
    assert MatchesAt(s, DayMonthYearCompact, 0);
    assert FindFrom(s, DayMonthYearCompact, 0) == Some(0);
  }

  /** A YYYY-MM-DD date, which has no slashes and too few adjacent digits for the other layouts, parses field by field. */
  lemma DashedDateParses(y: string, m: string, d: string)
    requires |y| == 4 && |m| == 2 && |d| == 2
    requires AllDigits(y) && AllDigits(m) && AllDigits(d)
    ensures ParseDate(y + "-" + m + "-" + d) == Ok(CalDate(DecimalValue(y), DecimalValue(m), DecimalValue(d)))
  {
    var s := y + "-" + m + "-" + d;
    DashedShape(y, m, d);
    NoSlashedDate(s);
    assert FindFrom(s, YearMonthDayDashed, 0) == Some(0);
  }

  /** `YYYY-MM-DD` puts its fields at 0, 5 and 8 and matches the dashed layout at 0. */
  lemma DashedShape(y: string, m: string, d: string)
    requires |y| == 4 && |m| == 2 && |d| == 2
    requires AllDigits(y) && AllDigits(m) && AllDigits(d)
    ensures var s := y + "-" + m + "-" + d;
      |s| == 10 && IsDigit(s[2]) && s[0..4] == y && s[5..7] == m && s[8..10] == d
      && MatchesAt(s, YearMonthDayDashed, 0)
  {
    var s := y + "-" + m + "-" + d;
    assert s[0..4] == y && s[5..7] == m && s[8..10] == d;
    assert s[2] == y[2];
  }

  /** Ten characters with a digit in third place hold no `DD/MM/YYYY` date. */
  lemma NoSlashedDate(s: string)
    requires |s| == 10 && IsDigit(s[2])
    ensures FindFrom(s, DayMonthYearSlashed, 0).None?
  {
    forall j: nat ensures !MatchesAt(s, DayMonthYearSlashed, j) {
      if j + 10 <= |s| {
        assert j == 0;
      }
    }
  }

  // =====================================================================
  // parseTime

  /** Index of the first digit of `s` at or after `i`. */
  function FirstDigitFrom(s: string, i: nat): (r: Option<nat>)
    ensures r.Some? ==> i <= r.value < |s| && IsDigit(s[r.value])
    ensures r.Some? ==> forall j :: i <= j < r.value ==> !IsDigit(s[j])
    ensures r.None? ==> forall j :: i <= j < |s| ==> !IsDigit(s[j])
    decreases |s| - i
  {
    if i >= |s| then None
    else if IsDigit(s[i]) then Some(i)
    else FirstDigitFrom(s, i + 1)
  }

  lemma {:induction false} DigitsOfEmpty(s: string)
    ensures DigitsOf(s) == [] <==> forall j :: 0 <= j < |s| ==> !IsDigit(s[j])
  {
    if s != [] {
      DigitsOfEmpty(s[1..]);
      if !IsDigit(s[0]) {
        assert forall j :: 1 <= j < |s| ==> s[j] == s[1..][j - 1];
      }
    }
  }

  /**
   * `parseTime`, i.e. `/(\d{1,2}):?(\d{2})?/` on `s`: the hours are the first
   * one or two adjacent digits, an optional colon follows, and the minutes are
   * the next two digits if both are there and 0 otherwise. `None` when `s`
   * holds no digit at all.
   */
  function ParseTime(s: string): (r: Option<ClockTime>)
    ensures r.None? <==> DigitsOf(s) == []
    ensures r.Some? ==> r.value.hours < 100 && r.value.minutes < 100
  {
    DigitsOfEmpty(s);
    match FirstDigitFrom(s, 0)
    case None => None
    case Some(i) => Some(ReadTime(s, i))
  }

  /** The match at the first digit `i`: one or two digits of hours, an optional colon, then the minutes. */
  function ReadTime(s: string, i: nat): (t: ClockTime)
    requires i < |s| && IsDigit(s[i])
    ensures t.hours < 100 && t.minutes < 100
  {
    var j := if i + 1 < |s| && IsDigit(s[i + 1]) then i + 2 else i + 1;
    var k := if j < |s| && s[j] == ':' then j + 1 else j;
    TwoDigitsBelowHundred(s, i, j);
    ClockTime(DecimalValue(s[i..j]), TwoDigitsAt(s, k))
  }

  /** The group `(\d{2})?` at `k`: the value of two digits there, else 0. */
  function TwoDigitsAt(s: string, k: nat): (m: nat)
    ensures m < 100
  {
    if DigitsAt(s, k, 2) then TwoDigitsBelowHundred(s, k, k + 2); DecimalValue(s[k..k + 2]) else 0
  }

  /**
   * The minutes group of `/(\d{1,2}):?(\d{2})?/` read from what follows the
   * hours: skip one optional colon, then the next two characters when both
   * are digits, else 0.
   */
  function MinutesField(t: string): nat
  {
    var u := if |t| > 0 && t[0] == ':' then t[1..] else t;
    if |u| >= 2 && IsDigit(u[0]) && IsDigit(u[1]) then DecimalValue(u[..2]) else 0
  }

  /**
   * The value of `parseTime` on any string that has a digit: after a prefix
   * `p` without digits, the hours are the run `h` of one or two digits (as
   * long as the regex's `\d{1,2}` takes it), and the minutes are
   * `MinutesField` of the rest.
   */
  lemma ParseTimeFields(p: string, h: string, t: string)
    requires forall i :: 0 <= i < |p| ==> !IsDigit(p[i])
    requires 1 <= |h| <= 2 && AllDigits(h)
    requires |h| == 1 ==> t == [] || !IsDigit(t[0])
    ensures ParseTime(p + h + t) == Some(ClockTime(DecimalValue(h), MinutesField(t)))
  {
    var s := p + h + t;
    var i, j := |p|, |p| + |h|;
    SplitAt(p, h, t);
    FirstDigitAfter(s, i, 0);
    assert j == (if i + 1 < |s| && IsDigit(s[i + 1]) then i + 2 else i + 1) by {
      if |h| == 1 && i + 1 < |s| {
        assert s[i + 1] == t[0];
      }
    }
    var k := if j < |s| && s[j] == ':' then j + 1 else j;
    ReadTimeAt(s, i, j, k);
    MinutesAfterColon(s, j, k, t);
  }

  /** Where the three parts of `p + h + t` sit. */
  lemma SplitAt(p: string, h: string, t: string)
    ensures var s := p + h + t;
      |s| == |p| + |h| + |t| && s[..|p|] == p && s[|p|..|p| + |h|] == h && s[|p| + |h|..] == t
      && forall n :: 0 <= n < |h| ==> s[|p| + n] == h[n]
  {
    var s := p + h + t;
    assert s[..|p|] == p && s[|p|..|p| + |h|] == h && s[|p| + |h|..] == t;
  }

  /** `ReadTime` once the end `j` of the hours and the start `k` of the minutes are known. */
  lemma ReadTimeAt(s: string, i: nat, j: nat, k: nat)
    requires i < |s| && IsDigit(s[i])
    requires j == (if i + 1 < |s| && IsDigit(s[i + 1]) then i + 2 else i + 1)
    requires k == (if j < |s| && s[j] == ':' then j + 1 else j)
    ensures AllDigits(s[i..j])
    ensures ReadTime(s, i) == ClockTime(DecimalValue(s[i..j]), TwoDigitsAt(s, k))
  {
    TwoDigitsBelowHundred(s, i, j);
  }

  /** The minutes `ParseTime` reads at `k` are `MinutesField` of the text after the hours. */
  lemma MinutesAfterColon(s: string, j: nat, k: nat, t: string)
    requires j <= |s| && s[j..] == t
    requires k == (if j < |s| && s[j] == ':' then j + 1 else j)
    ensures TwoDigitsAt(s, k) == MinutesField(t)
  {
    var u := if |t| > 0 && t[0] == ':' then t[1..] else t;
    assert s[k..] == u by {
      if j < |s| {
        assert s[j] == t[0];
      }
    }
    if |u| >= 2 {
      assert u[0] == s[k] && u[1] == s[k + 1];
      assert u[..2] == s[k..k + 2];
    }
  }

  /** The first digit at or after `from` is at `i` when `s[from..i]` has none. */
  lemma {:induction false} FirstDigitAfter(s: string, i: nat, from: nat)
    requires from <= i < |s| && IsDigit(s[i])
    requires forall j :: from <= j < i ==> !IsDigit(s[j])
    ensures FirstDigitFrom(s, from) == Some(i)
    decreases i - from
  {
    if from < i {
      FirstDigitAfter(s, i, from + 1);
    }
  }

  /** "8:30" is 8 hours and 30 minutes. */
  lemma ParseTimeColonSample()
    ensures ParseTime("8:30") == Some(ClockTime(8, 30))
  {
    assert "8:30" == "" + "8" + ":30";
    ParseTimeFields("", "8", ":30");
    assert ":30"[1..][..2] == ['3', '0'];
    DecimalValueTwo('3', '0');
  }

  /** "830" is read as hour 83 with no minutes: the regex takes two digits for the hours. */
  lemma ParseTimeThreeDigitSample()
    ensures ParseTime("830") == Some(ClockTime(83, 0))
  {
    assert "830" == "" + "83" + "0";
    ParseTimeFields("", "83", "0");
    assert "83" == ['8', '3'];
    DecimalValueTwo('8', '3');
  }

  /** "0830" is 8 hours and 30 minutes. */
  lemma ParseTimeFourDigitSample()
    ensures ParseTime("0830") == Some(ClockTime(8, 30))
  {
    assert "0830" == "" + "08" + "30";
    assert DecimalValue("08") == 8 by {
      assert "08" == ['0', '8'];
      DecimalValueTwo('0', '8');
    }
    assert MinutesField("30") == 30 by {
      assert "30"[..2] == ['3', '0'];
      DecimalValueTwo('3', '0');
    }
    ParseTimeFields("", "08", "30");
  }

  /** A bare one- or two-digit token is an hour with minute 0. */
  lemma HoursOnlyToken(d: string)
    requires 1 <= |d| <= 2 && AllDigits(d)
    ensures ParseTime(d) == Some(ClockTime(DecimalValue(d), 0))
  {
    assert FirstDigitFrom(d, 0) == Some(0);
    assert d[0..|d|] == d;
  }

  /** An `HH:MM` token is hour HH and minute MM. */
  lemma ColonToken(h: string, m: string)
    requires |h| == 2 && |m| == 2 && AllDigits(h) && AllDigits(m)
    ensures ParseTime(h + ":" + m) == Some(ClockTime(DecimalValue(h), DecimalValue(m)))
  {
    var s := h + ":" + m;
    ColonShape(h, m);
    ParseTimeAtColon(s);
  }

  lemma ColonShape(h: string, m: string)
    requires |h| == 2 && |m| == 2 && AllDigits(h) && AllDigits(m)
    ensures var s := h + ":" + m;
      |s| == 5 && IsDigit(s[0]) && IsDigit(s[1]) && s[2] == ':' && DigitsAt(s, 3, 2)
      && s[0..2] == h && s[3..5] == m
  {
    var s := h + ":" + m;
    assert s[0..2] == h && s[3..5] == m;
    assert s[0] == h[0] && s[1] == h[1];
  }

  /** A string opening with two digits, a colon and two digits reads as those hours and minutes. */
  lemma ParseTimeAtColon(s: string)
    requires |s| >= 5 && IsDigit(s[0]) && IsDigit(s[1]) && s[2] == ':' && DigitsAt(s, 3, 2)
    ensures ParseTime(s) == Some(ClockTime(DecimalValue(s[0..2]), DecimalValue(s[3..5])))
  {
    assert FirstDigitFrom(s, 0) == Some(0);
  }

  lemma TwoDigitsBelowHundred(s: string, i: nat, j: nat)
    requires i < j <= i + 2 && DigitsAt(s, i, j - i)
    ensures AllDigits(s[i..j]) && DecimalValue(s[i..j]) < 100
  {
    assert forall t :: 0 <= t < j - i ==> s[i..j][t] == s[i + t];
    if j == i + 2 {
      DecimalValueTwo(s[i], s[i + 1]);
      assert s[i..j] == [s[i], s[i + 1]];
    } else {
      assert s[i..j] == [s[i]];
      assert [s[i]][..0] == [];
    }
  }

  // =====================================================================
  // parseTimes

  /** One token of `parseTimes`: exactly four digits become `DD:DD`; any other token is kept. */
  function NormalizeToken(t: string): string
  {
    var c := DigitsOf(t);
    if |c| == 4 then c[..2] + ":" + c[2..] else t
  }

  /** `parseTimes`: drop blank tokens, normalise the rest. */
  function ParseTimes(ts: seq<string>): (r: seq<string>)
    ensures |r| <= |ts|
  {
    if ts == [] then []
    else if IsBlank(ts[0]) then ParseTimes(ts[1..])
    else [NormalizeToken(ts[0])] + ParseTimes(ts[1..])
  }

  lemma NormalizedShape(c: string)
    requires |c| == 4 && AllDigits(c)
    ensures DigitsOf(c[..2] + ":" + c[2..]) == c
    ensures !IsBlank(c[..2] + ":" + c[2..])
  {
    var n := c[..2] + ":" + c[2..];
    assert DigitsOf(n) == c by {
      DigitsOfAppend(c[..2] + ":", c[2..]);
      DigitsOfAppend(c[..2], ":");
      DigitsOfAllDigits(c[..2]);
      DigitsOfAllDigits(c[2..]);
      assert DigitsOf(":") == [];
      assert c[..2] + c[2..] == c;
    }
    assert n[0] == c[0];
    DigitFirstNotBlank(n);
  }

  /** A string that opens with a digit is not blank. */
  lemma DigitFirstNotBlank(s: string)
    requires s != [] && IsDigit(s[0])
    ensures !IsBlank(s)
  {
    BlankIffAllSpace(s);
    assert !IsJsSpace(s[0]);
  }

  /** `DigitsOf` of a concatenation is the concatenation of the digits. */
  lemma {:induction false} DigitsOfAppend(a: string, b: string)
    ensures DigitsOf(a + b) == DigitsOf(a) + DigitsOf(b)
  {
    if a == [] {
      assert a + b == b;
    } else {
      var ab := a + b;
      assert ab != [] && ab[0] == a[0] && ab[1..] == a[1..] + b;
      DigitsOfAppend(a[1..], b);
    }
  }

  /** A string of digits only is its own digits. */
  lemma {:induction false} DigitsOfAllDigits(c: string)
    requires AllDigits(c)
    ensures DigitsOf(c) == c
  {
    if c != [] {
      DigitsOfAllDigits(c[1..]);
    }
  }

  /** Normalising a token that survived normalisation changes nothing, and a kept token stays non-blank. */
  lemma NormalizeTokenIdempotent(t: string)
    requires !IsBlank(t)
    ensures NormalizeToken(NormalizeToken(t)) == NormalizeToken(t)
    ensures !IsBlank(NormalizeToken(t))
  {
    var c := DigitsOf(t);
    if |c| == 4 {
      NormalizedShape(c);
    }
  }

  /** `parseTimes` is idempotent: its output is already normalised and free of blanks. */
  lemma {:induction false} ParseTimesIdempotent(ts: seq<string>)
    ensures ParseTimes(ParseTimes(ts)) == ParseTimes(ts)
  {
    if ts != [] {
      ParseTimesIdempotent(ts[1..]);
      if !IsBlank(ts[0]) {
        NormalizeTokenIdempotent(ts[0]);
        var r := ParseTimes(ts);
        assert r[0] == NormalizeToken(ts[0]) && r[1..] == ParseTimes(ts[1..]);
      }
    }
  }

  /** `parseTimes` keeps no blank token. */
  lemma {:induction false} ParseTimesNoBlank(ts: seq<string>)
    ensures forall k :: 0 <= k < |ParseTimes(ts)| ==> !IsBlank(ParseTimes(ts)[k])
  {
    if ts != [] {
      ParseTimesNoBlank(ts[1..]);
      var r := ParseTimes(ts);
      var rest := ParseTimes(ts[1..]);
      if !IsBlank(ts[0]) {
        NormalizeTokenIdempotent(ts[0]);
        assert r == [NormalizeToken(ts[0])] + rest;
        forall k | 0 <= k < |r| ensures !IsBlank(r[k]) {
          if k > 0 { assert r[k] == rest[k - 1]; }
        }
      } else {
        assert r == rest;
      }
    }
  }

  /** `"0800"` and `"08:00"` normalise to the same token, `"08:00"`. */
  lemma CompactAndColonTimesAgree()
    ensures NormalizeToken("0800") == "08:00"
    ensures NormalizeToken("08:00") == "08:00"
  {
    assert DigitsOf("0800") == "0800";
    assert DigitsOf("08:00") == "0800" by {
      assert "08:00"[1..] == "8:00";
      assert "8:00"[1..] == ":00";
      assert ":00"[1..] == "00";
    }
  }

  /**
   * A token with exactly four digits parses, once normalised, to the hour
   * made of its first two digits and the minute made of its last two.
   */
  lemma NormalizedTokenTime(t: string)
    requires |DigitsOf(t)| == 4
    ensures ParseTime(NormalizeToken(t)) ==
      Some(ClockTime(DecimalValue(DigitsOf(t)[..2]), DecimalValue(DigitsOf(t)[2..])))
  {
    var c := DigitsOf(t);
    ColonShape(c[..2], c[2..]);
    ParseTimeAtColon(c[..2] + ":" + c[2..]);
  }

  // =====================================================================
  // Fixed-width time chunks: `timesStr.match(/.{1,8}/g) || []`

  /** The length of the run of non-terminator characters at the head of `s`, capped at 8. */
  function ChunkLength(s: string): (n: nat)
    ensures n <= 8 && n <= |s|
    ensures forall j :: 0 <= j < n ==> !IsLineTerminator(s[j])
    ensures n < 8 && n < |s| ==> IsLineTerminator(s[n])
  {
    if s == [] || IsLineTerminator(s[0]) then 0
    else if |s| == 1 then 1
    else var m := ChunkLength(s[1..]); if m == 8 then 8 else 1 + m
  }

  /** Every match of `/.{1,8}/g`: runs of up to eight characters, line terminators skipped. */
  function Chunks8(s: string): (r: seq<string>)
    ensures forall k :: 0 <= k < |r| ==> 1 <= |r[k]| <= 8
    decreases |s|
  {
    if s == [] then []
    else if IsLineTerminator(s[0]) then Chunks8(s[1..])
    else
      var n := ChunkLength(s);
      [s[..n]] + Chunks8(s[n..])
  }

  function Concat(parts: seq<string>): string
  {
    if parts == [] then [] else parts[0] + Concat(parts[1..])
  }

  predicate NoLineTerminator(s: string) { forall j :: 0 <= j < |s| ==> !IsLineTerminator(s[j]) }

  /**
   * On a tail without line terminators the chunks concatenate back to the tail
   * and every chunk but the last has exactly eight characters.
   */
  lemma {:induction false} ChunksCoverTail(s: string)
    requires NoLineTerminator(s)
    ensures Concat(Chunks8(s)) == s
    ensures forall k :: 0 <= k < |Chunks8(s)| - 1 ==> |Chunks8(s)[k]| == 8
    decreases |s|
  {
    if s != [] {
      var n := ChunkLength(s);
      assert n == Min(8, |s|);
      ChunksCoverTail(s[n..]);
      assert s == s[..n] + s[n..];
    }
  }

  // =====================================================================
  // parseTxtLine

  /** The three line layouts, in detection order, and the fall-through case. */
  datatype Layout = Semicolon | Pipe | FixedWidth | Unrecognized

  predicate DelimitedWith(line: string, sep: char)
  {
    HasChar(line, sep) && |Split(line, sep)| >= 3
  }

  /** Which branch of `parseTxtLine` returns for `line`. */
  function DetectLayout(line: string): Layout
  {
    if DelimitedWith(line, ';') then Semicolon
    else if DelimitedWith(line, '|') then Pipe
    else if |line| > 50 then FixedWidth
    else Unrecognized
  }

  /** The trimmed fields of a delimited line. */
  function DelimitedFields(line: string, sep: char): (parts: seq<string>)
    ensures |parts| == |Split(line, sep)|
  {
    MapTrim(Split(line, sep))
  }

  /** Field 0 is the identifier, 1 the name, 2 the date, 3.. the time tokens with empty fields dropped. */
  function FromFields(parts: seq<string>): (r: Result<RawRecord, LineError>)
    requires |parts| >= 3
    ensures r.Err? <==> NoDatePatternMatches(parts[2])
    ensures r.Err? ==> r.error == InvalidDate(parts[2])
  {
    match ParseDate(parts[2])
    case Err(e) => Err(e)
    case Ok(d) => Ok(RawRecord(parts[0], parts[1], d, ParseTimes(NonEmpty(parts[3..]))))
  }

  /** The tail of a fixed-width line, from column 52 on, trimmed. */
  function FixedWidthTail(line: string): string
  {
    if |line| <= 52 then [] else Trim(line[52..])
  }

  /** Columns [0,12) identifier, [12,42) name, [42,52) date, then eight-character time chunks. */
  function FromFixedWidth(line: string): (r: Result<RawRecord, LineError>)
    ensures r.Err? <==> NoDatePatternMatches(Trim(Substring(line, 42, 52)))
    ensures r.Err? ==> r.error == InvalidDate(Trim(Substring(line, 42, 52)))
  {
    var id := Trim(Substring(line, 0, 12));
    var name := Trim(Substring(line, 12, 42));
    var dateStr := Trim(Substring(line, 42, 52));
    match ParseDate(dateStr)
    case Err(e) => Err(e)
    case Ok(d) => Ok(RawRecord(id, name, d, ParseTimes(Chunks8(FixedWidthTail(line)))))
  }

  /** `parseTxtLine`: detect the layout, extract the fields, parse date and times. */
  function ParseTxtLine(line: string, lineNumber: int): (r: Result<RawRecord, LineError>)
    ensures r == Err(UnrecognizedLineFormat(lineNumber)) <==> DetectLayout(line) == Unrecognized
    ensures r.Err? && r.error.UnrecognizedLineFormat? ==> r.error.lineNumber == lineNumber
  {
    match DetectLayout(line)
    case Semicolon => FromFields(DelimitedFields(line, ';'))
    case Pipe => FromFields(DelimitedFields(line, '|'))
    case FixedWidth => FromFixedWidth(line)
    case Unrecognized => Err(UnrecognizedLineFormat(lineNumber))
  }

  /**
   * The layouts are tried in order: the fixed-width reading is reached only
   * when neither delimiter gives three fields and the line is longer than 50
   * characters; a `;` line with fewer than three fields falls through to the
   * `|` test, which maps fields identically.
   */
  lemma LayoutPriority(line: string)
    ensures DetectLayout(line) == Semicolon <==> DelimitedWith(line, ';')
    ensures DetectLayout(line) == Pipe <==> !DelimitedWith(line, ';') && DelimitedWith(line, '|')
    ensures DetectLayout(line) == FixedWidth <==>
      !DelimitedWith(line, ';') && !DelimitedWith(line, '|') && |line| > 50
    ensures DetectLayout(line) == Pipe ==>
      ParseTxtLine(line, 0) == FromFields(DelimitedFields(line, '|'))
  {
  }

  // =====================================================================
  // Header lines

  const PisPrefix: string := "pis"
  const MatriculaPrefix: string := "matricula"
  const MatriculaAccentPrefix: string := "matr\U{00ED}cula"

  /** A header line: starts with `pis`/`matricula`/`matrícula`, or mentions both `nome` and `data`, ignoring case. */
  predicate IsHeader(line: string)
  {
    var l := ToLower(line);
    StartsWith(l, PisPrefix) || StartsWith(l, MatriculaPrefix) || StartsWith(l, MatriculaAccentPrefix)
    || (Contains(l, "nome") && Contains(l, "data"))
  }

  /** Header detection ignores case: a line starting with `PIS`, as terminals write it, is a header. */
  lemma UpperCasePisIsHeader(line: string)
    requires StartsWith(line, "PIS")
    ensures IsHeader(line)
  {
    var l := ToLower(line);
    assert line[0] == 'P' && line[1] == 'I' && line[2] == 'S';
    assert l[0] == 'p' && l[1] == 'i' && l[2] == 's';
    assert l[..3] == PisPrefix;
  }

  /**
   * A line built from three or more `;`-free, already-trimmed fields maps field 0
   * to the identifier, field 1 to the name, field 2 to the date and the
   * non-empty fields from 3 on to the time tokens.
   */
  lemma SemicolonLineFields(parts: seq<string>, lineNumber: int)
    requires |parts| >= 3
    requires forall k :: 0 <= k < |parts| ==> !HasChar(parts[k], ';') && Trim(parts[k]) == parts[k]
    requires ParseDate(parts[2]).Ok?
    ensures ParseTxtLine(Join(parts, ';'), lineNumber) ==
      Ok(RawRecord(parts[0], parts[1], ParseDate(parts[2]).value, ParseTimes(NonEmpty(parts[3..]))))
  {
    SemicolonLayout(parts);
  }

  /** Trimmed fields without `;` joined by `;` are a semicolon line whose fields are those fields. */
  lemma SemicolonLayout(parts: seq<string>)
    requires |parts| >= 3
    requires forall k :: 0 <= k < |parts| ==> !HasChar(parts[k], ';') && Trim(parts[k]) == parts[k]
    ensures DetectLayout(Join(parts, ';')) == Semicolon
    ensures DelimitedFields(Join(parts, ';'), ';') == parts
  {
    SemicolonDetected(parts);
    SemicolonFields(parts);
  }

  lemma SemicolonDetected(parts: seq<string>)
    requires |parts| >= 3
    requires forall k :: 0 <= k < |parts| ==> !HasChar(parts[k], ';')
    ensures DetectLayout(Join(parts, ';')) == Semicolon
  {
    var line := Join(parts, ';');
    SplitOfJoin(parts, ';');
    JoinHead(parts, ';');
    assert line[|parts[0]|] == ';';
    assert HasChar(line, ';');
  }

  lemma SemicolonFields(parts: seq<string>)
    requires |parts| >= 1
    requires forall k :: 0 <= k < |parts| ==> !HasChar(parts[k], ';') && Trim(parts[k]) == parts[k]
    ensures DelimitedFields(Join(parts, ';'), ';') == parts
  {
    var line := Join(parts, ';');
    SplitOfJoin(parts, ';');
    var fields := DelimitedFields(line, ';');
    forall k | 0 <= k < |parts| ensures fields[k] == parts[k] {
      assert fields[k] == Trim(Split(line, ';')[k]);
    }
  }
}
