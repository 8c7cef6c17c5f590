/**
 * The collective-agreement strategy (backend/src/rules/strategies/cct-rule.strategy.ts):
 * it applies when the configuration carries at least one agreement rule, and
 * it reports the statutory figures unchanged, with its own code appended to
 * the applied rules.
 */
module CctStrategy {
  import opened Common
  import opened RuleTypes
  import CltStrategy

  const Code: string := "CCT_CUSTOM"

  /** `!!config.cctRules && Object.keys(config.cctRules).length > 0`. */
  predicate CanApply(tc: TimeClockData, config: RuleConfig)
  {
    config.cctRules.Some? && |config.cctRules.value| > 0
  }

  /**
   * `calculateExtraHours`: the statutory result with this strategy's code
   * after the statutory one; the agreement rules change no figure.
   */
  function CalculateExtraHours(tc: TimeClockData, config: RuleConfig): (r: ExtraHoursResult)
    ensures r.appliedRules == [CltStrategy.Code, Code]
    ensures r == CltStrategy.CalculateExtraHours(tc, config).(appliedRules := r.appliedRules)
  {
    var baseResult := CltStrategy.CalculateExtraHours(tc, config);
    baseResult.(appliedRules := baseResult.appliedRules + [Code])
  }

  /** Only the configuration decides applicability: the punches never do. */
  lemma ApplicabilityIgnoresPunches(tc1: TimeClockData, tc2: TimeClockData, config: RuleConfig)
    ensures CanApply(tc1, config) == CanApply(tc2, config)
    ensures CanApply(tc1, config) <==> exists code :: config.cctRules.Some? && code in config.cctRules.value
  {
    if CanApply(tc1, config) {
      var m := config.cctRules.value;
      assert |m.Keys| > 0;
      var code :| code in m.Keys;
    }
  }

  /** Agreement rules change no figure: every hour count equals the statutory one. */
  lemma SameFiguresAsStatutory(tc: TimeClockData, config: RuleConfig)
    ensures CalculateExtraHours(tc, config).totalHours == CltStrategy.CalculateExtraHours(tc, config).totalHours
    ensures CalculateExtraHours(tc, config).extraHours == CltStrategy.CalculateExtraHours(tc, config).extraHours
    ensures CalculateExtraHours(tc, config).nightHours == CltStrategy.CalculateExtraHours(tc, config).nightHours
    ensures CalculateExtraHours(tc, config).holidayHours == CltStrategy.CalculateExtraHours(tc, config).holidayHours
    ensures CalculateExtraHours(tc, config).breakdown == CltStrategy.CalculateExtraHours(tc, config).breakdown
  {
  }
}
