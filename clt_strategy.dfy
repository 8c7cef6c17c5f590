/**
 * The default statutory strategy (backend/src/rules/strategies/clt-rule.strategy.ts):
 * worked hours from the complete pairs, split at the standard day into
 * regular and extra hours, night hours by the 22:00-05:00 heuristic, and
 * holiday hours equal to the worked hours on a holiday.
 *
 * The multipliers the source reads from the configuration never reach the
 * result and are not modelled.
 */
module CltStrategy {
  import opened Common
  import opened RuleTypes

  const Code: string := "CLT_STANDARD"

  /** The statutory rule applies to every day. */
  predicate CanApply(tc: TimeClockData, config: RuleConfig)
  {
    true
  }

  /** `config.standardHoursPerDay || 8`: absent and zero both mean eight hours. */
  function StandardHours(config: RuleConfig): (h: real)
    ensures h != 0.0
    ensures config.standardHoursPerDay.Some? && config.standardHoursPerDay.value != 0.0 ==>
      h == config.standardHoursPerDay.value
    ensures config.standardHoursPerDay.None? ==> h == 8.0
    ensures config.standardHoursPerDay == Some(0.0) ==> h == 8.0
  {
    match config.standardHoursPerDay
    case Some(h) => if h != 0.0 then h else 8.0
    case None => 8.0
  }

  // ---------------------------------------------------------------------
  // Worked time

  /** A pair's contribution to the worked minutes: its duration when complete, else 0. */
  function PairMinutes(p: Punch): int
  {
    if p.Complete() then p.Duration() else 0
  }

  function SumPairMinutes(ps: seq<Punch>): int
  {
    if ps == [] then 0 else PairMinutes(ps[0]) + SumPairMinutes(ps[1..])
  }

  /** Worked hours: the minutes of the complete pairs, over 60. */
  function WorkedHours(tc: TimeClockData): real
  {
    SumPairMinutes(Pairs(tc)) as real / 60.0
  }

  /** `calculateWorkedHours`: accumulate the minutes of each complete pair. */
  method CalculateWorkedHours(tc: TimeClockData) returns (hours: real)
    ensures hours == WorkedHours(tc)
  {
    var totalMinutes := 0;
    if tc.entry1.Some? && tc.exit1.Some? {
      totalMinutes := totalMinutes + (tc.exit1.value - tc.entry1.value);
    }
    if tc.entry2.Some? && tc.exit2.Some? {
      totalMinutes := totalMinutes + (tc.exit2.value - tc.entry2.value);
    }
    if tc.entry3.Some? && tc.exit3.Some? {
      totalMinutes := totalMinutes + (tc.exit3.value - tc.entry3.value);
    }
    SumOfThreePairs(Pairs(tc));
    hours := totalMinutes as real / 60.0;
  }

  /** The sums over the three pairs of a day, unrolled. */
  lemma SumOfThreePairs(ps: seq<Punch>)
    requires |ps| == 3
    ensures SumPairMinutes(ps) == PairMinutes(ps[0]) + PairMinutes(ps[1]) + PairMinutes(ps[2])
    ensures SumNightMinutes(ps) == PairNightMinutes(ps[0]) + PairNightMinutes(ps[1]) + PairNightMinutes(ps[2])
  {
    var tail := ps[1..];
    assert tail[1..] == [ps[2]];
    assert SumPairMinutes([ps[2]]) == PairMinutes(ps[2]) by { assert [ps[2]][1..] == []; }
    assert SumNightMinutes([ps[2]]) == PairNightMinutes(ps[2]) by { assert [ps[2]][1..] == []; }
    assert SumPairMinutes(tail) == PairMinutes(ps[1]) + PairMinutes(ps[2]);
  }

  // ---------------------------------------------------------------------
  // Night time

  const NightStart: int := 22
  const NightEnd: int := 5

  /**
   * `checkNightHours` for one pair: the whole duration when the pair crosses
   * midnight by the clock (exit hour before entry hour) or lies between 22h and
   * 5h; half of it when only one end is in the night window; otherwise nothing.
   */
  function PairNightMinutes(p: Punch): real
  {
    if !p.Complete() then 0.0
    else
      var entryHour := HourOf(p.entry.value);
      var exitHour := HourOf(p.exit.value);
      if exitHour < entryHour || (entryHour >= NightStart && exitHour <= NightEnd) then p.Duration() as real
      else if entryHour >= NightStart || exitHour <= NightEnd then p.Duration() as real * 0.5
      else 0.0
  }

  function SumNightMinutes(ps: seq<Punch>): real
  {
    if ps == [] then 0.0 else PairNightMinutes(ps[0]) + SumNightMinutes(ps[1..])
  }

  function NightHours(tc: TimeClockData): real
  {
    SumNightMinutes(Pairs(tc)) / 60.0
  }

  /** `calculateNightHours`: add each complete pair's night minutes to a running total. */
  method CalculateNightHours(tc: TimeClockData) returns (hours: real)
    ensures hours == NightHours(tc)
  {
    var nightMinutes := 0.0;
    var pairs := Pairs(tc);
    var added := CheckNightMinutes(pairs[0]);
    nightMinutes := nightMinutes + added;
    added := CheckNightMinutes(pairs[1]);
    nightMinutes := nightMinutes + added;
    added := CheckNightMinutes(pairs[2]);
    nightMinutes := nightMinutes + added;
    SumOfThreePairs(pairs);
    hours := nightMinutes / 60.0;
  }

  /** The body of the `checkNightHours` closure: what one complete pair adds. */
  method CheckNightMinutes(p: Punch) returns (added: real)
    ensures added == PairNightMinutes(p)
  {
    added := 0.0;
    if p.entry.Some? && p.exit.Some? {
      var entryHour := HourOf(p.entry.value);
      var exitHour := HourOf(p.exit.value);
      var minutes := (p.exit.value - p.entry.value) as real;
      if exitHour < entryHour || (entryHour >= NightStart && exitHour <= NightEnd) {
        added := minutes;
      } else if entryHour >= NightStart || exitHour <= NightEnd {
        added := minutes * 0.5;
      }
    }
  }

  // ---------------------------------------------------------------------
  // The calculation

  /**
   * `calculateExtraHours`: regular hours are the worked hours up to the
   * standard day, extra hours the excess, never negative; the two add up to
   * the worked hours. Holiday hours are the worked hours on a holiday. The
   * breakdown is one entry for the record's date carrying the totals.
   */
  function CalculateExtraHours(tc: TimeClockData, config: RuleConfig): (r: ExtraHoursResult)
    ensures r.totalHours == WorkedHours(tc) && r.nightHours == NightHours(tc)
    ensures r.extraHours >= 0.0
    ensures r.totalHours > StandardHours(config) ==> r.extraHours == r.totalHours - StandardHours(config)
    ensures r.totalHours <= StandardHours(config) ==> r.extraHours == 0.0
    ensures r.holidayHours == (if tc.isHoliday then r.totalHours else 0.0)
    ensures r.appliedRules == [Code] && r.dsrHours.None?
    ensures |r.breakdown| == 1
    ensures r.breakdown[0].date == tc.date
    ensures r.breakdown[0].regularHours + r.extraHours == r.totalHours
    ensures r.breakdown[0].regularHours <= StandardHours(config)
    ensures r.breakdown[0].extraHours == r.extraHours && r.breakdown[0].nightHours == r.nightHours
    ensures r.breakdown[0].holidayHours == r.holidayHours
  {
    var standardHoursPerDay := StandardHours(config);
    var workedHours := WorkedHours(tc);
    var regularHours := if workedHours <= standardHoursPerDay then workedHours else standardHoursPerDay;
    var extraHours := if 0.0 >= workedHours - standardHoursPerDay then 0.0 else workedHours - standardHoursPerDay;
    var nightHours := NightHours(tc);
    var holidayHours := if tc.isHoliday then workedHours else 0.0;
    ExtraHoursResult(
      workedHours, extraHours, nightHours, holidayHours, None, [Code],
      [DayBreakdown(tc.date, regularHours, extraHours, nightHours, holidayHours)])
  }

  // ---------------------------------------------------------------------
  // Properties

  /** The day 08:00-12:00 and 13:00-18:00 with no configuration: 9 worked hours, 8 regular, 1 extra, none at night. */
  lemma TwoDaytimePairs(tc: TimeClockData)
    requires tc.entry1 == Some(480) && tc.exit1 == Some(720) && tc.entry2 == Some(780) && tc.exit2 == Some(1080)
    requires tc.entry3.None? && tc.exit3.None?
    ensures var r := CalculateExtraHours(tc, EmptyConfig);
      r.totalHours == 9.0 && r.extraHours == 1.0 && r.breakdown[0].regularHours == 8.0 && r.nightHours == 0.0
  {
    var ps := Pairs(tc);
    SumOfThreePairs(ps);
    assert PairMinutes(ps[0]) == 240 && PairMinutes(ps[1]) == 300 && PairMinutes(ps[2]) == 0;
    assert HourOf(480) == 8 && HourOf(720) == 12 && HourOf(780) == 13 && HourOf(1080) == 18;
    assert PairNightMinutes(ps[0]) == 0.0 && PairNightMinutes(ps[1]) == 0.0 && PairNightMinutes(ps[2]) == 0.0;
  }

  /** Every complete pair ends no earlier than it starts. */
  predicate Ordered(ps: seq<Punch>)
  {
    forall k :: 0 <= k < |ps| ==> ps[k].Complete() ==> ps[k].Duration() >= 0
  }

  /** With ordered pairs, night minutes are never negative and never exceed the worked minutes. */
  lemma {:induction false} NightWithinWorked(ps: seq<Punch>)
    requires Ordered(ps)
    ensures 0 <= SumPairMinutes(ps)
    ensures 0.0 <= SumNightMinutes(ps) <= SumPairMinutes(ps) as real
  {
    if ps != [] {
      assert Ordered(ps[1..]) by {
        forall k | 0 <= k < |ps[1..]| ensures ps[1..][k].Complete() ==> ps[1..][k].Duration() >= 0 {
          assert ps[1..][k] == ps[k + 1];
        }
      }
      NightWithinWorked(ps[1..]);
      assert ps[0].Complete() ==> ps[0].Duration() >= 0;
    }
  }

  /**
   * When every complete pair has exit >= entry, the calculation reports
   * non-negative worked hours and night hours between 0 and the worked hours.
   */
  lemma OrderedDayBounds(tc: TimeClockData, config: RuleConfig)
    requires Ordered(Pairs(tc))
    ensures CalculateExtraHours(tc, config).totalHours >= 0.0
    ensures 0.0 <= CalculateExtraHours(tc, config).nightHours <= CalculateExtraHours(tc, config).totalHours
  {
    NightWithinWorked(Pairs(tc));
  }

  /** A pair missing either end contributes no worked and no night time. */
  lemma IncompletePairContributesNothing(p: Punch)
    requires !p.Complete()
    ensures PairMinutes(p) == 0 && PairNightMinutes(p) == 0.0
  {
  }

  /**
   * Both punches of a pair are stamped on the record's own date, so a shift
   * from 22:00 to 02:00 is stored as exit 120 before entry 1320: its duration
   * is negative and it lowers the worked hours instead of adding four.
   */
  lemma OvernightPairIsNegative()
    ensures PairMinutes(Punch(Some(22 * 60), Some(2 * 60))) == -1200
    ensures PairNightMinutes(Punch(Some(22 * 60), Some(2 * 60))) == -1200.0
  {
  }
}
