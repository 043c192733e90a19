/** When a spec's results can be stored at all: exactly for which caps the store takes every ranking a run proposes. */
module Acceptance {
  import opened Calendar
  import opened Claims
  import opened ConstantWeights
  import opened Drift
  import opened Ladder
  import opened Market
  import opened Options
  import opened OrderQueue
  import opened Proposal
  import opened Selection
  import opened Simulation
  import opened Tilt
  import RunStore
  import Sorting
  import Text

  /** The ranking a request's run reports after its first `n` days. */
  function RankingOf(inputs: Inputs, n: nat): CandidateSet
    requires ValidInputs(inputs) && Prepare(inputs).Ready? && n <= |inputs.panel.dates|
  {
    PreparedIsWellFormed(inputs);
    var env := Prepare(inputs).env;
    match inputs.tracking
    case Drifting => Run(env, n).candidates
    case Constant => FrozenRun(env, n).candidates
  }

  /** A request under this spec over fewer than 2e8 symbols, and a point of its run. */
  ghost predicate PointOf(inputs: Inputs, n: nat, params: Params, floor: real) {
    UnderSpec(inputs, params, floor) && |inputs.universe| < MOST_NAMES && n <= |inputs.panel.dates|
  }

  /** The store takes what any request under this spec proposes, at any point of its run. */
  ghost predicate AlwaysStorable(params: Params, floor: real) {
    forall inputs: Inputs, n: nat :: PointOf(inputs, n, params, floor) ==> TakenAt(inputs, n)
  }

  ghost predicate TakenAt(inputs: Inputs, n: nat) {
    && ValidInputs(inputs) && Prepare(inputs).Ready? && n <= |inputs.panel.dates|
    && RunStore.Committable(Rounded(RankingOf(inputs, n)))
  }

  ghost predicate GatesLetSomethingThrough(gates: seq<Gate>) {
    exists momentum: real :: momentum > -1.0 && PassesGates(momentum, gates)
  }

  /**
   * A spec whose gates let anything through is safe exactly for a cap above 5e-9: then every run's ranking can be
   * stored, and otherwise some run proposes a name whose weight is rounded to zero and refused.
   */
  lemma StorableExactlyAboveTheSmallestCap(params: Params, floor: real)
    requires ValidParams(params) && 0.0 <= floor <= 1.0 && GatesLetSomethingThrough(params.gates)
    ensures AlwaysStorable(params, floor) <==> params.maxWeight > SMALLEST_WEIGHT
  {
    hide PointOf, TakenAt, PassesGates;
    if params.maxWeight > SMALLEST_WEIGHT {
      forall inputs: Inputs, n: nat | PointOf(inputs, n, params, floor) ensures TakenAt(inputs, n) {
        WideCapIsStorable(inputs, n, params, floor);
      }
    } else {
      var momentum: real :| momentum > -1.0 && PassesGates(momentum, params.gates);
      var inputs, n := TinyCapIsRefused(params, floor, momentum);
    }
  }

  lemma {:induction false} NamesAreFew(raw: seq<string>)
    ensures |Names(raw)| <= |raw|
  {
    if |raw| > 0 {
      NamesAreFew(raw[..|raw| - 1]);
    }
  }

  lemma UniverseIsFew(inputs: Inputs)
    requires ValidInputs(inputs) && Prepare(inputs).Ready?
    ensures |Prepare(inputs).env.symbols| <= |inputs.universe|
  {
    hide Normalize, RebalanceSchedule, Uncovered, Restricted, AscendingDates;
    NamesAreFew(inputs.universe);
    Sorting.SortKeepsElements(Names(inputs.universe), SymbolLe);
  }

  lemma WideCapIsStorable(inputs: Inputs, n: nat, params: Params, floor: real)
    requires params.maxWeight > SMALLEST_WEIGHT && PointOf(inputs, n, params, floor)
    ensures TakenAt(inputs, n)
  {
    PreparedIsWellFormed(inputs);
    PreparedFacts(inputs);
    UniverseIsFew(inputs);
    var env := Prepare(inputs).env;
    hide Prepare, WellFormed, ValidInputs, Run, FrozenRun, Listed, PositivePrices, Normalize, Rounded;
    hide RunStore.Committable;
    RankingIsStorable(env, n, RankingOf(inputs, n));
  }

  /** `EngineOutputIsAccepted` without the run it is committed to. */
  lemma RankingIsStorable(env: Env, n: nat, ranking: CandidateSet)
    requires WellFormed(env) && Increasing(env.rebalance) && n <= |env.panel.dates| && "" !in env.symbols
    requires Proposes(env, n, ranking)
    ensures |ranking.positions| <= |env.symbols|
    ensures RunStore.Committable(Rounded(ranking)) <==> Storable(|ranking.positions|, env.params.maxWeight)
  {
    var i := ProposalIsADecision(env, n, ranking);
    hide Proposes, Decide, WellFormed, CandidatesOf, Rounded, RunStore.Committable;
    if ranking == INITIAL.candidates {
      NothingIsStorable(env.symbols);
    } else {
      DecisionIsStorable(env, i);
    }
  }

  // A run that is refused

  /** One name, gaining `momentum` over the lookback, with two certain claims behind it. */
  function Solo(momentum: real, lag: nat): Plan {
    Plan(1, momentum, 1.0, lag, 1.0, 1.0)
  }

  lemma SoloIsValid(params: Params, floor: real, momentum: real)
    requires ValidParams(params) && 0.0 <= floor <= 1.0 && momentum > -1.0 && PassesGates(momentum, params.gates)
    ensures ValidPlan(Solo(momentum, params.lag), params, floor)
  {
    hide PassesGates, ValidParams;
    assert Rise(Solo(momentum, params.lag), 0) == momentum;
  }

  /** The decision on the first full lookback holds at least one name. */
  lemma SoloDecides(params: Params, floor: real, momentum: real)
    requires ValidPlan(Solo(momentum, params.lag), params, floor)
    ensures var inputs := Request(Solo(momentum, params.lag), params, floor);
            && ValidInputs(inputs) && Prepare(inputs).Ready? && WellFormed(Prepare(inputs).env)
            && params.lookbackDays < |Prepare(inputs).env.panel.dates|
            && CandidatesOf(Decide(Prepare(inputs).env, params.lookbackDays).decision).positions != []
  {
    var plan := Solo(momentum, params.lag);
    var inputs := Request(plan, params, floor);
    PlanDecides(plan, params, floor);
    PreparedIsWellFormed(inputs);
    var env := Prepare(inputs).env;
    hide Prepare, Rungs, Request, ValidPlan, Eligibles, Choose, ActiveGroups, ClaimScores, Ordinal, Listed;
    hide PositivePrices;
    assert |CrossSection(inputs, params.lookbackDays)| == 1;
    hide ScheduledExactly, Normalize, AscendingDates;
    ChosenFromSome(CrossSection(inputs, params.lookbackDays), env.params);
  }

  lemma ChosenFromSome(es: seq<Ranking.Eligible>, params: Params)
    requires ValidParams(params) && |es| > 0
    ensures Choose(es, params) != []
  {
    Sorting.SortKeepsElements(ScoreAll(es, params), ScoredLe);
  }

  /** A run over exactly the days its first decision needs to fill, which chooses something. */
  ghost predicate FillsOnce(inputs: Inputs, params: Params) {
    && ValidInputs(inputs) && Prepare(inputs).Ready? && WellFormed(Prepare(inputs).env)
    && inputs.params == params && inputs.tracking.Drifting?
    && |inputs.panel.dates| == params.lookbackDays + params.lag + 1
    && params.lookbackDays in Prepare(inputs).env.rebalance
    && params.lookbackDays < |Prepare(inputs).env.panel.dates|
    && CandidatesOf(Decide(Prepare(inputs).env, params.lookbackDays).decision).positions != []
  }

  lemma SoloFillsOnce(params: Params, floor: real, momentum: real)
    requires ValidPlan(Solo(momentum, params.lag), params, floor)
    ensures FillsOnce(Request(Solo(momentum, params.lag), params, floor), params)
  {
    var plan := Solo(momentum, params.lag);
    RequestFields(plan, params, floor);
    SoloDecides(params, floor, momentum);
    RequestIsReady(plan, params, floor);
    hide Request, Prepare, WellFormed, ValidInputs, ValidPlan, Decide, CandidatesOf, PositivePrices, Pairs, Prices;
    hide NamesTo;
  }

  lemma SoloIsAPoint(params: Params, floor: real, momentum: real)
    requires ValidPlan(Solo(momentum, params.lag), params, floor)
    ensures var inputs := Request(Solo(momentum, params.lag), params, floor);
            PointOf(inputs, |inputs.panel.dates|, params, floor)
  {
    var plan := Solo(momentum, params.lag);
    PlanDecides(plan, params, floor);
    RequestFields(plan, params, floor);
    hide Request, UnderSpec, CrossSection, Rungs, ValidPlan, Prepare;
  }

  lemma TinyCapIsRefused(params: Params, floor: real, momentum: real) returns (inputs: Inputs, n: nat)
    requires ValidParams(params) && 0.0 <= floor <= 1.0 && params.maxWeight <= SMALLEST_WEIGHT
    requires momentum > -1.0 && PassesGates(momentum, params.gates)
    ensures PointOf(inputs, n, params, floor) && !TakenAt(inputs, n)
    ensures RankingOf(inputs, n).positions != []
  {
    hide PassesGates, ValidPlan, Request, FillsOnce, TakenAt, PointOf, RankingOf, ValidInputs, Prepare, ValidParams;
    inputs := Request(Solo(momentum, params.lag), params, floor);
    n := |inputs.panel.dates|;
    SoloIsValid(params, floor, momentum);
    SoloIsAPoint(params, floor, momentum);
    SoloFillsOnce(params, floor, momentum);
    FirstDecisionIsRefused(inputs, params);
  }

  lemma FirstDecisionIsRefused(inputs: Inputs, params: Params)
    requires FillsOnce(inputs, params) && params.maxWeight <= SMALLEST_WEIGHT
    ensures RankingOf(inputs, |inputs.panel.dates|).positions != []
    ensures !TakenAt(inputs, |inputs.panel.dates|)
  {
    PreparedIsWellFormed(inputs);
    SameCap(inputs);
    hide Prepare, WellFormed, ValidInputs, Decide, CandidatesOf, Rounded, RunStore.Committable, RankingOf, Listed;
    SoloProposes(inputs, params.lookbackDays);
    DecisionIsStorable(Prepare(inputs).env, params.lookbackDays);
  }

  lemma SameCap(inputs: Inputs)
    requires ValidInputs(inputs) && Prepare(inputs).Ready?
    ensures Prepare(inputs).env.params.maxWeight == inputs.params.maxWeight
    ensures Prepare(inputs).env.params.lag == inputs.params.lag
  {
    hide Normalize, RebalanceSchedule, AuthorizedSymbols, Uncovered, Restricted, AscendingDates;
  }

  /** lag + 1 days after its first decision, a run proposes that decision. */
  lemma SoloProposes(inputs: Inputs, first: nat)
    requires ValidInputs(inputs) && Prepare(inputs).Ready? && first == inputs.params.lookbackDays
    requires first in Prepare(inputs).env.rebalance && inputs.tracking.Drifting?
    requires |inputs.panel.dates| == first + inputs.params.lag + 1
    ensures WellFormed(Prepare(inputs).env) && first < |Prepare(inputs).env.panel.dates|
    ensures RankingOf(inputs, |inputs.panel.dates|) == CandidatesOf(Decide(Prepare(inputs).env, first).decision)
  {
    PreparedIsWellFormed(inputs);
    ScheduleStartsAt(inputs);
    SameCap(inputs);
    hide Prepare, WellFormed, ValidInputs, Run, Decide, CandidatesOf, Listed, ScheduledExactly;
    FirstDecisionIsProposed(Prepare(inputs).env, first);
  }

  lemma FirstDecisionIsProposed(env: Env, first: nat)
    requires WellFormed(env) && Increasing(env.rebalance) && |env.panel.dates| == first + env.params.lag + 1
    requires first in env.rebalance && forall i :: i in env.rebalance ==> i >= first
    ensures Run(env, |env.panel.dates|).candidates == CandidatesOf(Decide(env, first).decision)
  {
    hide WellFormed, Run, Decide, CandidatesOf, FilledDays;
    OnlyTheFirstFills(env.rebalance, env.params.lag, first);
    ProposalIsTheLastFill(env, |env.panel.dates|);
  }

  lemma ScheduleStartsAt(inputs: Inputs)
    requires ValidInputs(inputs) && Prepare(inputs).Ready?
    ensures Increasing(Prepare(inputs).env.rebalance)
    ensures forall i :: i in Prepare(inputs).env.rebalance ==> i >= inputs.params.lookbackDays
  {
    ScheduleIsExact(inputs);
    hide Prepare, PeriodKeys, PeriodStarts;
  }

  /** Of days from `first` on, only `first` has filled lag + 1 days later. */
  lemma OnlyTheFirstFills(rebalance: seq<nat>, lag: nat, first: nat)
    requires first in rebalance && forall i :: i in rebalance ==> i >= first
    ensures var days := FilledDays(rebalance, lag, first + lag + 1); |days| > 0 && days[|days| - 1] == first
  {
    hide FilledDays;
    var days := FilledDays(rebalance, lag, first + lag + 1);
    assert first in days;
    assert days[|days| - 1] in days;
  }
}
