/** The frozen earlier accounting: constant weights between rebalances, charged only when they are set. */
module ConstantWeights {
  import opened Calendar
  import opened Claims
  import opened Drift
  import opened Ledger
  import opened Market
  import opened Options
  import opened Selection

  /** The variables of the earlier day loop. An entry price may be a missing bar. */
  datatype FrozenState = FrozenState(
    equity: real, weights: seq<Entry>, entryPrice: map<Symbol, Option<real>>,
    equityCurve: seq<real>, dailyReturns: seq<real>, log: seq<LogEntry>, invested: seq<real>,
    turnover: real, rebalances: nat, stopExits: nat, supportedRebalances: nat,
    investedFrom: Option<nat>, candidates: CandidateSet)

  const FROZEN_INITIAL :=
    FrozenState(1.0, [], map[], [], [], [], [], 0.0, 0, 0, 0, None, CandidateSet(None, []))

  /** What one weight adds to the day's return: nothing when either bar is missing. */
  function Contribution(panel: Panel, weight: Entry, index: nat): real {
    var previous, current := Bar(panel, weight.symbol, index - 1), Bar(panel, weight.symbol, index);
    if previous.Some? && current.Some? && previous.value > 0.0
    then weight.amount * (current.value / previous.value - 1.0)
    else 0.0
  }

  function DayReturn(panel: Panel, weights: seq<Entry>, index: nat): real {
    if |weights| == 0 then 0.0
    else DayReturn(panel, weights[..|weights| - 1], index) + Contribution(panel, weights[|weights| - 1], index)
  }

  function Grown(equity: real, dayReturn: real): real {
    equity * (1.0 + dayReturn)
  }

  function FrozenMark(env: Env, index: nat, st: FrozenState): FrozenState {
    if index == 0 then st
    else
      var r := DayReturn(env.panel, st.weights, index);
      st.(equity := Grown(st.equity, r), dailyReturns := st.dailyReturns + [r])
  }

  predicate FrozenStopHit(env: Env, index: nat, entryPrice: map<Symbol, Option<real>>, symbol: Symbol) {
    var current := Bar(env.panel, symbol, index);
    && env.params.stopLoss.Some?
    && current.Some?
    && symbol in entryPrice && entryPrice[symbol].Some? && entryPrice[symbol].value != 0.0
    && current.value / entryPrice[symbol].value - 1.0 <= -env.params.stopLoss.value
  }

  /** The weights with every stopped name zeroed, for free. */
  function Zeroed(env: Env, index: nat, entryPrice: map<Symbol, Option<real>>,
      weights: seq<Entry>): (zeroed: seq<Entry>)
    ensures |zeroed| == |weights|
  {
    seq(|weights|, k requires 0 <= k < |weights| =>
      if FrozenStopHit(env, index, entryPrice, weights[k].symbol) then weights[k].(amount := 0.0) else weights[k])
  }

  function CountStops(env: Env, index: nat, entryPrice: map<Symbol, Option<real>>, weights: seq<Entry>): nat {
    if |weights| == 0 then 0
    else
      var last := weights[|weights| - 1];
      CountStops(env, index, entryPrice, weights[..|weights| - 1])
      + (if FrozenStopHit(env, index, entryPrice, last.symbol) && last.amount > 0.0 then 1 else 0)
  }

  function FrozenStops(env: Env, index: nat, st: FrozenState): FrozenState {
    st.(weights := Zeroed(env, index, st.entryPrice, st.weights),
        stopExits := st.stopExits + CountStops(env, index, st.entryPrice, st.weights))
  }

  /** Turnover in weight space, over the union of both key sets. */
  function WeightTurnover(weights: seq<Entry>, target: seq<Entry>): real {
    TradedValue(weights, 1.0, target)
  }

  function RecordedPrices(panel: Panel, weights: seq<Entry>, index: nat): map<Symbol, Option<real>> {
    map e | e in weights :: e.symbol := Bar(panel, e.symbol, index)
  }

  function ScoresOf(weights: seq<Entry>, scores: map<Symbol, real>): (supports: seq<Entry>)
    ensures |supports| == |weights|
  {
    seq(|weights|, k requires 0 <= k < |weights| => Entry(weights[k].symbol, SupportOf(scores, weights[k].symbol)))
  }

  /** Setting the decided weights, charged in weight space at the deciding bar. */
  function FrozenFill(env: Env, index: nat, st: FrozenState, decision: Decision): FrozenState {
    var target := TargetOf(decision.positions);
    var turnover := WeightTurnover(st.weights, target);
    var weights := Positive(target);
    st.(equity := st.equity * (1.0 - CostRate(env.params) * turnover),
        turnover := st.turnover + turnover,
        rebalances := st.rebalances + 1,
        supportedRebalances := st.supportedRebalances + (if decision.hadClaimSupport then 1 else 0),
        weights := weights,
        entryPrice := RecordedPrices(env.panel, weights, index),
        log := st.log + [LogEntry(decision.asOf, decision.asOf, weights,
                                  ScoresOf(weights, ClaimScores(decision.activeClaims)))],
        candidates := CandidatesOf(decision),
        investedFrom := if st.investedFrom.None? then Some(index) else st.investedFrom)
  }

  function FrozenRebalance(env: Env, index: nat, st: FrozenState): FrozenState
    requires WellFormed(env) && index < |env.panel.dates|
  {
    if index in env.rebalance then FrozenFill(env, index, st, Decide(env, index).decision) else st
  }

  function FrozenRecord(st: FrozenState): FrozenState {
    st.(invested := if st.investedFrom.None? then st.invested else st.invested + [Sum(st.weights)],
        equityCurve := st.equityCurve + [st.equity])
  }

  function FrozenStep(env: Env, index: nat, st: FrozenState): FrozenState
    requires WellFormed(env) && index < |env.panel.dates|
  {
    FrozenRecord(FrozenRebalance(env, index, FrozenStops(env, index, FrozenMark(env, index, st))))
  }

  function FrozenRun(env: Env, n: nat): FrozenState
    requires WellFormed(env) && n <= |env.panel.dates|
  {
    if n == 0 then FROZEN_INITIAL else FrozenStep(env, n - 1, FrozenRun(env, n - 1))
  }

  lemma FrozenStart(env: Env)
    requires WellFormed(env)
    ensures FrozenRun(env, 0) == FROZEN_INITIAL
  {
  }

  lemma FrozenRunStep(env: Env, t: nat)
    requires WellFormed(env) && t < |env.panel.dates|
    ensures FrozenRun(env, t + 1) == FrozenStep(env, t, FrozenRun(env, t))
  {
    hide FrozenStep, WellFormed;
  }

  // The loop

  method SumDayReturn(panel: Panel, weights: seq<Entry>, index: nat) returns (dayReturn: real)
    ensures dayReturn == DayReturn(panel, weights, index)
  {
    dayReturn := 0.0;
    for k := 0 to |weights|
      invariant dayReturn == DayReturn(panel, weights[..k], index)
    {
      assert weights[..k + 1][..k] == weights[..k];
      var previous, current := Bar(panel, weights[k].symbol, index - 1), Bar(panel, weights[k].symbol, index);
      if previous.Some? && current.Some? && previous.value > 0.0 {
        dayReturn := dayReturn + weights[k].amount * (current.value / previous.value - 1.0);
      }
    }
    assert weights[..|weights|] == weights;
  }

  method ZeroStopped(env: Env, index: nat, st: FrozenState) returns (weights: seq<Entry>, stopExits: nat)
    ensures weights == FrozenStops(env, index, st).weights
    ensures stopExits == FrozenStops(env, index, st).stopExits
  {
    hide FrozenStopHit;
    weights, stopExits := st.weights, st.stopExits;
    for k := 0 to |st.weights|
      invariant |weights| == |st.weights|
      invariant forall j :: 0 <= j < k ==> weights[j] == Zeroed(env, index, st.entryPrice, st.weights)[j]
      invariant forall j :: k <= j < |weights| ==> weights[j] == st.weights[j]
      invariant stopExits == st.stopExits + CountStops(env, index, st.entryPrice, st.weights[..k])
    {
      assert st.weights[..k + 1][..k] == st.weights[..k];
      if FrozenStopHit(env, index, st.entryPrice, weights[k].symbol) {
        if weights[k].amount > 0.0 {
          stopExits := stopExits + 1;
        }
        weights := weights[k := weights[k].(amount := 0.0)];
      }
    }
    assert st.weights[..|st.weights|] == st.weights;
  }

  method SimulateConstantWeights(env: Env) returns (st: FrozenState)
    requires WellFormed(env)
    ensures st == FrozenRun(env, |env.panel.dates|)
  {
    hide DayReturn, Zeroed, CountStops, Decide, FrozenFill, Sum, AscendingDates, ValidParams;
    st := FROZEN_INITIAL;
    for index := 0 to |env.panel.dates|
      invariant st == FrozenRun(env, index)
    {
      ghost var marked := FrozenMark(env, index, st);
      if index > 0 {
        var dayReturn := SumDayReturn(env.panel, st.weights, index);
        st := st.(equity := st.equity * (1.0 + dayReturn), dailyReturns := st.dailyReturns + [dayReturn]);
      }
      assert st == marked;
      if env.params.stopLoss.Some? {
        var weights, stopExits := ZeroStopped(env, index, st);
        st := st.(weights := weights, stopExits := stopExits);
      } else {
        NoStopsFrozen(env, index, st);
      }
      assert st == FrozenStops(env, index, marked);
      if index in env.rebalance {
        var order := TakeDecision(env, index);
        st := FrozenFill(env, index, st, order.decision);
      }
      st := FrozenRecord(st);
    }
  }

  lemma {:induction false} NoStopsCounted(env: Env, index: nat, entryPrice: map<Symbol, Option<real>>,
      weights: seq<Entry>)
    requires env.params.stopLoss.None?
    ensures CountStops(env, index, entryPrice, weights) == 0
  {
    if |weights| > 0 {
      NoStopsCounted(env, index, entryPrice, weights[..|weights| - 1]);
    }
  }

  lemma NoStopsFrozen(env: Env, index: nat, st: FrozenState)
    requires env.params.stopLoss.None?
    ensures FrozenStops(env, index, st) == st
  {
    NoStopsCounted(env, index, st.entryPrice, st.weights);
    assert Zeroed(env, index, st.entryPrice, st.weights) == st.weights;
  }
}
