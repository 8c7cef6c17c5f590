/**
 * The strategy registry and selector (backend/src/rules/rule-engine.service.ts).
 *
 * The strategies are the two the application ships, as a closed datatype.
 * The registry is a map from code to strategy together with the order in
 * which codes were first registered, which is the iteration order of a
 * JavaScript `Map`. Selection filters the applicable strategies, sorts them
 * with a comparator that puts `CCT_CUSTOM` first and keeps the rest in
 * registry order (the sort is stable), and applies the first one, falling
 * back to the statutory rule when none applies.
 */
module RuleEngine {
  import opened Common
  import opened RuleTypes
  import CltStrategy
  import CctStrategy

  datatype Strategy = CltStandard | CctCustom
  {
    function Code(): string
    {
      match this
      case CltStandard => CltStrategy.Code
      case CctCustom => CctStrategy.Code
    }

    predicate CanApply(tc: TimeClockData, config: RuleConfig)
    {
      match this
      case CltStandard => CltStrategy.CanApply(tc, config)
      case CctCustom => CctStrategy.CanApply(tc, config)
    }

    function Calculate(tc: TimeClockData, config: RuleConfig): ExtraHoursResult
    {
      match this
      case CltStandard => CltStrategy.CalculateExtraHours(tc, config)
      case CctCustom => CctStrategy.CalculateExtraHours(tc, config)
    }
  }

  /** The strategies that accept the day under the configuration, in registry order. */
  function Applicable(strategies: seq<Strategy>, tc: TimeClockData, config: RuleConfig): (r: seq<Strategy>)
    ensures forall s :: s in r <==> s in strategies && s.CanApply(tc, config)
  {
    if strategies == [] then []
    else if strategies[0].CanApply(tc, config) then [strategies[0]] + Applicable(strategies[1..], tc, config)
    else Applicable(strategies[1..], tc, config)
  }

  /** The strategies with code `CCT_CUSTOM`, in order. */
  function Agreements(strategies: seq<Strategy>): seq<Strategy>
  {
    if strategies == [] then []
    else if strategies[0].Code() == CctStrategy.Code then [strategies[0]] + Agreements(strategies[1..])
    else Agreements(strategies[1..])
  }

  /** The strategies with any other code, in order. */
  function Others(strategies: seq<Strategy>): seq<Strategy>
  {
    if strategies == [] then []
    else if strategies[0].Code() == CctStrategy.Code then Others(strategies[1..])
    else [strategies[0]] + Others(strategies[1..])
  }

  /**
   * What a stable sort with the comparator "CCT_CUSTOM before anything,
   * otherwise equal" produces: the agreement strategies, then the rest, each
   * group in its original order.
   */
  function Prioritized(strategies: seq<Strategy>): seq<Strategy>
  {
    Agreements(strategies) + Others(strategies)
  }

  /** `calculateExtraHours` over the registered strategies, in registry order. */
  function Select(strategies: seq<Strategy>, tc: TimeClockData, config: RuleConfig): (r: ExtraHoursResult)
    ensures r == CltStrategy.CalculateExtraHours(tc, config) || r == CctStrategy.CalculateExtraHours(tc, config)
  {
    var ordered := Prioritized(Applicable(strategies, tc, config));
    if |ordered| == 0 then CltStrategy.CalculateExtraHours(tc, config)
    else ordered[0].Calculate(tc, config)
  }

  /** The strategies registered under `order`, looked up in `registry`. */
  function Lookup(registry: map<string, Strategy>, order: seq<string>): (r: seq<Strategy>)
    requires forall k :: 0 <= k < |order| ==> order[k] in registry
    ensures |r| == |order|
    ensures forall k :: 0 <= k < |order| ==> r[k] == registry[order[k]]
  {
    if order == [] then [] else [registry[order[0]]] + Lookup(registry, order[1..])
  }

  class Engine {
    /** The registered strategies by code. */
    var strategies: map<string, Strategy>
    /** The codes in the order they were first registered. */
    var order: seq<string>

    /** Each strategy is filed under its own code, and `order` lists every code once. */
    ghost predicate Valid()
      reads this
    {
      (forall c :: c in strategies ==> strategies[c].Code() == c)
      && (forall k :: 0 <= k < |order| ==> order[k] in strategies)
      && (forall c :: c in strategies ==> c in order)
      && (forall i, j :: 0 <= i < j < |order| ==> order[i] != order[j])
    }

    /** The engine starts with the statutory strategy and then the agreement strategy. */
    constructor ()
      ensures Valid()
      ensures strategies == map[CltStrategy.Code := CltStandard, CctStrategy.Code := CctCustom]
      ensures order == [CltStrategy.Code, CctStrategy.Code]
    {
      strategies := map[];
      order := [];
      new;
      RegisterStrategy(CltStandard);
      assert CltStrategy.Code[1] != CctStrategy.Code[1];
      RegisterStrategy(CctCustom);
    }

    /**
     * `registerStrategy`: file the strategy under its code, replacing any
     * strategy with the same code; a new code goes to the end of the order,
     * a replaced one keeps its place.
     */
    method RegisterStrategy(strategy: Strategy)
      requires Valid()
      modifies this
      ensures Valid()
      ensures strategies == old(strategies)[strategy.Code() := strategy]
      ensures order == if strategy.Code() in old(strategies) then old(order) else old(order) + [strategy.Code()]
    {
      var code := strategy.Code();
      if code !in strategies {
        order := order + [code];
      }
      strategies := strategies[code := strategy];
    }

    /** The registered strategies in iteration order. */
    function Registered(): (r: seq<Strategy>)
      reads this
      requires Valid()
      ensures forall s :: s in r <==> s in strategies.Values
    {
      var r := Lookup(strategies, order);
      assert forall s :: s in strategies.Values ==> s in r by {
        forall s | s in strategies.Values ensures s in r {
          var c :| c in strategies && strategies[c] == s;
          var k :| 0 <= k < |order| && order[k] == c;
          assert r[k] == s;
        }
      }
      r
    }

    /** `calculateExtraHours`: apply the highest-priority applicable strategy. */
    function CalculateExtraHours(tc: TimeClockData, config: RuleConfig): (r: ExtraHoursResult)
      reads this
      requires Valid()
    {
      Select(Registered(), tc, config)
    }

    /**
     * `simulateRule`: a registered code names the strategy to run, whether or
     * not it would apply; no code, an empty code or an unknown code runs the
     * normal selection.
     */
    function SimulateRule(tc: TimeClockData, config: RuleConfig, ruleCode: Option<string>): (r: ExtraHoursResult)
      reads this
      requires Valid()
      ensures ruleCode.Some? && ruleCode.value in strategies ==>
        r == strategies[ruleCode.value].Calculate(tc, config)
      ensures ruleCode.None? || ruleCode.value !in strategies ==> r == CalculateExtraHours(tc, config)
    {
      if ruleCode.Some? && ruleCode.value != "" && ruleCode.value in strategies then
        strategies[ruleCode.value].Calculate(tc, config)
      else CalculateExtraHours(tc, config)
    }
  }

  // ---------------------------------------------------------------------
  // Properties of the selection

  /** An applicable agreement strategy heads the prioritized list. */
  lemma {:induction false} AgreementFirst(strategies: seq<Strategy>)
    requires CctCustom in strategies
    ensures |Prioritized(strategies)| > 0 && Prioritized(strategies)[0] == CctCustom
  {
    if strategies[0] != CctCustom {
      AgreementFirst(strategies[1..]);
    }
  }

  /** Without an agreement strategy, only the statutory strategy can lead. */
  lemma {:induction false} NoAgreementMeansStatutory(strategies: seq<Strategy>)
    requires CctCustom !in strategies
    ensures Agreements(strategies) == []
    ensures forall s :: s in Others(strategies) ==> s == CltStandard
  {
    if strategies != [] {
      NoAgreementMeansStatutory(strategies[1..]);
    }
  }

  /**
   * With agreement rules configured and the agreement strategy registered,
   * the selection runs the agreement strategy, whatever else is registered.
   */
  lemma AgreementWins(strategies: seq<Strategy>, tc: TimeClockData, config: RuleConfig)
    requires CctCustom in strategies
    requires CctStrategy.CanApply(tc, config)
    ensures Select(strategies, tc, config) == CctStrategy.CalculateExtraHours(tc, config)
    ensures Select(strategies, tc, config).appliedRules == [CltStrategy.Code, CctStrategy.Code]
  {
    AgreementFirst(Applicable(strategies, tc, config));
  }

  /** Without agreement rules, the selection always yields the statutory result. */
  lemma StatutoryOtherwise(strategies: seq<Strategy>, tc: TimeClockData, config: RuleConfig)
    requires !CctStrategy.CanApply(tc, config)
    ensures Select(strategies, tc, config) == CltStrategy.CalculateExtraHours(tc, config)
  {
    var applicable := Applicable(strategies, tc, config);
    assert CctCustom !in applicable;
    NoAgreementMeansStatutory(applicable);
    if |Prioritized(applicable)| > 0 {
      assert Prioritized(applicable)[0] in Others(applicable);
    }
  }

  /** The engine as constructed picks the agreement strategy exactly when agreement rules are configured. */
  lemma EngineSelection(e: Engine, tc: TimeClockData, config: RuleConfig)
    requires e.Valid() && CctStrategy.Code in e.strategies
    ensures CctStrategy.CanApply(tc, config) ==>
      e.CalculateExtraHours(tc, config) == CctStrategy.CalculateExtraHours(tc, config)
    ensures !CctStrategy.CanApply(tc, config) ==>
      e.CalculateExtraHours(tc, config) == CltStrategy.CalculateExtraHours(tc, config)
  {
    assert e.strategies[CctStrategy.Code] == CctCustom;
    assert CctCustom in e.strategies.Values;
    if CctStrategy.CanApply(tc, config) {
      AgreementWins(e.Registered(), tc, config);
    } else {
      StatutoryOtherwise(e.Registered(), tc, config);
    }
  }

  /** The import's empty configuration always gets the statutory result. */
  lemma EmptyConfigIsStatutory(e: Engine, tc: TimeClockData)
    requires e.Valid()
    ensures e.CalculateExtraHours(tc, EmptyConfig) == CltStrategy.CalculateExtraHours(tc, EmptyConfig)
  {
    StatutoryOtherwise(e.Registered(), tc, EmptyConfig);
  }

  /**
   * Simulating the agreement code runs the agreement strategy even when it
   * would not apply, so its code shows in the applied rules without any
   * agreement rule configured.
   */
  lemma SimulationBypassesApplicability(e: Engine, tc: TimeClockData)
    requires e.Valid() && CctStrategy.Code in e.strategies
    ensures e.SimulateRule(tc, EmptyConfig, Some(CctStrategy.Code)).appliedRules == [CltStrategy.Code, CctStrategy.Code]
    ensures e.CalculateExtraHours(tc, EmptyConfig).appliedRules == [CltStrategy.Code]
  {
    assert e.strategies[CctStrategy.Code] == CctCustom;
    EmptyConfigIsStatutory(e, tc);
  }
}
