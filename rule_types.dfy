/**
 * The data the rule strategies exchange
 * (backend/src/rules/interfaces/rule-strategy.interface.ts): a day's
 * punches, the rule configuration and the calculation result.
 *
 * Timestamps are integer minutes counted from local midnight of the record's
 * date (so a punch at 08:30 is 510, and one rolled over to the next day is
 * 1440 or more); hours are `real`, so divisions by 60 and halvings are exact.
 */
module RuleTypes {
  import opened Common
  import opened TimeParsing

  /** The punches of one employee on one day: up to three (entry, exit) pairs. */
  datatype TimeClockData = TimeClockData(
    date: CalDate,
    entry1: Option<int>, exit1: Option<int>,
    entry2: Option<int>, exit2: Option<int>,
    entry3: Option<int>, exit3: Option<int>,
    isHoliday: bool,
    isWeekend: bool,
    userId: string)

  /** Every option of a rule configuration; an absent option is `None`. */
  datatype RuleConfig = RuleConfig(
    standardHoursPerDay: Option<real>,
    standardHoursPerWeek: Option<real>,
    extraHourMultiplier: Option<real>,
    nightHourMultiplier: Option<real>,
    holidayMultiplier: Option<real>,
    maxExtraHoursPerDay: Option<real>,
    maxExtraHoursPerWeek: Option<real>,
    maxExtraHoursPerMonth: Option<real>,
    dsrOnExtraHours: Option<bool>,
    cctRules: Option<map<string, string>>,
    lunchBreakDuration: Option<real>,
    minimumIntervalBetweenJourneys: Option<real>)

  /** The configuration `{}` that the importer passes. */
  const EmptyConfig: RuleConfig :=
    RuleConfig(None, None, None, None, None, None, None, None, None, None, None, None)

  datatype DayBreakdown = DayBreakdown(
    date: CalDate, regularHours: real, extraHours: real, nightHours: real, holidayHours: real)

  datatype ExtraHoursResult = ExtraHoursResult(
    totalHours: real,
    extraHours: real,
    nightHours: real,
    holidayHours: real,
    dsrHours: Option<real>,
    appliedRules: seq<string>,
    breakdown: seq<DayBreakdown>)

  /** One (entry, exit) pair of a day. */
  datatype Punch = Punch(entry: Option<int>, exit: Option<int>)
  {
    predicate Complete() { entry.Some? && exit.Some? }

    /** `getMinutesDifference(entry, exit)` for a complete pair. */
    function Duration(): int
      requires Complete()
    {
      exit.value - entry.value
    }
  }

  /** The three pairs, in the order the strategies visit them. */
  function Pairs(tc: TimeClockData): (ps: seq<Punch>)
    ensures |ps| == 3
  {
    [Punch(tc.entry1, tc.exit1), Punch(tc.entry2, tc.exit2), Punch(tc.entry3, tc.exit3)]
  }

  /** `Date.prototype.getHours` of a timestamp: the hour of the local day it falls in. */
  function HourOf(t: int): (h: int)
    ensures 0 <= h < 24
  {
    (t % 1440) / 60
  }
}
