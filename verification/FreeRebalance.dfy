/** What the earlier accounting hides: it is the drifting ledger with a free rebalance to its last weights each day. */
module FreeRebalance {
  import opened ConstantWeights
  import opened Drift
  import opened Ledger
  import opened Market
  import opened Options
  import opened Solvency
  import Reals

  /** A drifting book that also remembers the weights it last traded to. */
  datatype FreeBook = FreeBook(
    equity: real, cash: real, values: seq<Entry>, weights: seq<Entry>,
    equityCurve: seq<real>, invested: seq<real>, turnover: real, investedFrom: Option<nat>)

  const FREE_INITIAL := FreeBook(1.0, 1.0, [], [], [], [], 0.0, None)

  function FreeMark(env: Env, index: nat, b: FreeBook): FreeBook {
    if index == 0 then b
    else
      var marked := MarkValues(env.panel, b.values, index);
      b.(values := marked, equity := b.cash + Sum(marked))
  }

  /** Trade to a target at some rate; what it cost shows in equity, and the turnover is the caller's to book. */
  function TradeTo(b: FreeBook, target: seq<Entry>, costRate: real): FreeBook {
    var traded := ApplyTarget(b.values, b.cash, b.equity, target, costRate);
    b.(equity := traded.equity, cash := traded.cash, values := traded.values)
  }

  /** Back to the last weights, at no cost and booking no turnover. */
  function FreeReset(b: FreeBook): FreeBook {
    TradeTo(b, b.weights, 0.0)
  }

  /** The scheduled rebalance, charged and booked. */
  function FreeCharge(env: Env, index: nat, b: FreeBook): FreeBook
    requires WellFormed(env) && index < |env.panel.dates|
  {
    if index !in env.rebalance then b
    else
      var target := Decide(env, index).weights;
      TradeTo(b, target, CostRate(env.params))
        .(weights := target,
          turnover := b.turnover + ApplyTarget(b.values, b.cash, b.equity, target, CostRate(env.params)).turnover,
          investedFrom := if b.investedFrom.None? then Some(index) else b.investedFrom)
  }

  function FreeRecord(b: FreeBook): FreeBook {
    b.(invested := if b.investedFrom.None? then b.invested
                   else b.invested + [if b.equity > 0.0 then Sum(b.values) / b.equity else 0.0],
       equityCurve := b.equityCurve + [b.equity])
  }

  function FreeDay(env: Env, index: nat, b: FreeBook): FreeBook
    requires WellFormed(env) && index < |env.panel.dates|
  {
    FreeRecord(FreeCharge(env, index, FreeReset(FreeMark(env, index, b))))
  }

  function FreeRun(env: Env, n: nat): FreeBook
    requires WellFormed(env) && n <= |env.panel.dates|
  {
    if n == 0 then FREE_INITIAL else FreeDay(env, n - 1, FreeRun(env, n - 1))
  }

  /** The book sits exactly on the frozen weights. */
  ghost predicate OnWeights(st: FrozenState, b: FreeBook) {
    && b.equity == st.equity > 0.0
    && b.weights == st.weights && LongOnly(st.weights)
    && b.values == Scale(st.weights, st.equity)
    && b.cash == st.equity - Sum(b.values)
  }

  ghost predicate SameReport(st: FrozenState, b: FreeBook) {
    && b.equityCurve == st.equityCurve
    && b.turnover == st.turnover
    && b.invested == st.invested
    && b.investedFrom == st.investedFrom
  }

  lemma OnWeightsIsBalanced(st: FrozenState, b: FreeBook)
    requires OnWeights(st, b)
    ensures Balanced(b.values, b.cash, b.equity)
    ensures Sum(b.values) == Sum(st.weights) * st.equity
  {
    SumScale(st.weights, st.equity);
    ScaleKeeps(st.weights, st.equity);
    ShareBound(Sum(st.weights), st.equity);
  }

  // Marking

  lemma {:induction false} MarkedSum(panel: Panel, weights: seq<Entry>, equity: real, index: nat)
    ensures Sum(MarkValues(panel, Scale(weights, equity), index))
         == Sum(Scale(weights, equity)) + Reals.Times(equity, DayReturn(panel, weights, index))
  {
    hide Scale, MarkValues, Contribution, Growth, Reals.Times;
    Reals.TimesAdds(equity, 0.0, 0.0);
    if |weights| > 0 {
      hide Sum, DayReturn;
      var front, last := weights[..|weights| - 1], weights[|weights| - 1];
      MarkedSum(panel, front, equity, index);
      ScaleFront(weights, equity);
      MarkFront(panel, Scale(weights, equity), index);
      MarkedEntry(panel, weights, equity, index);
      SumLast(Scale(weights, equity));
      SumLast(MarkValues(panel, Scale(weights, equity), index));
      DayReturnLast(panel, weights, index);
      Reals.TimesAdds(equity, DayReturn(panel, front, index), Contribution(panel, last, index));
    }
  }

  lemma SumLast(a: seq<Entry>)
    requires |a| > 0
    ensures Sum(a) == Sum(a[..|a| - 1]) + a[|a| - 1].amount
  {
  }

  lemma DayReturnLast(panel: Panel, a: seq<Entry>, index: nat)
    requires |a| > 0
    ensures DayReturn(panel, a, index) == DayReturn(panel, a[..|a| - 1], index) + Contribution(panel, a[|a| - 1], index)
  {
  }

  lemma MarkedAmount(weight: real, equity: real, growth: real)
    ensures (weight * equity) * growth == weight * equity + Reals.Times(equity, weight * (growth - 1.0))
  {
  }

  lemma MarkFront(panel: Panel, values: seq<Entry>, index: nat)
    requires |values| > 0
    ensures MarkValues(panel, values, index)[..|values| - 1] == MarkValues(panel, values[..|values| - 1], index)
  {
    var marked, front := MarkValues(panel, values, index), values[..|values| - 1];
    forall k | 0 <= k < |front| ensures marked[k] == MarkValues(panel, front, index)[k] {
      assert front[k] == values[k];
    }
  }

  lemma MarkedEntry(panel: Panel, weights: seq<Entry>, equity: real, index: nat)
    requires |weights| > 0
    ensures var last := weights[|weights| - 1];
            MarkValues(panel, Scale(weights, equity), index)[|weights| - 1].amount
              == Scale(weights, equity)[|weights| - 1].amount + Reals.Times(equity, Contribution(panel, last, index))
  {
    var last := weights[|weights| - 1];
    MarkedAmount(last.amount, equity, Growth(panel, last.symbol, index));
    assert last.amount * (Growth(panel, last.symbol, index) - 1.0) == Contribution(panel, last, index);
    hide Growth, Contribution, Reals.Times;
  }

  lemma MarkedBookIsBalanced(panel: Panel, values: seq<Entry>, cash: real, equity: real, index: nat)
    requires PositivePrices(panel) && Balanced(values, cash, equity)
    ensures var marked := MarkValues(panel, values, index); Balanced(marked, cash, cash + Sum(marked))
  {
    var marked := MarkValues(panel, values, index);
    MarkedValuesStayPositive(panel, values, index);
    SumPositive(marked);
    if |values| == 0 {
      assert Sum(values) == 0.0;
    }
  }

  /** Marking the book to market and trading it back to its weights for free is the frozen daily return. */
  lemma FreeResetIsTheDayReturn(env: Env, index: nat, st: FrozenState, b: FreeBook)
    requires Good(env) && OnWeights(st, b)
    ensures OnWeights(FrozenMark(env, index, st), FreeReset(FreeMark(env, index, b)))
  {
    hide Sum, Scale, MarkValues, DayReturn, ApplyTarget, Balanced;
    OnWeightsIsBalanced(st, b);
    var marked := FreeMark(env, index, b);
    if index > 0 {
      MarkedBookIsBalanced(env.panel, b.values, b.cash, b.equity, index);
      MarkedSum(env.panel, st.weights, st.equity, index);
      assert marked.equity == FrozenMark(env, index, st).equity;
    }
    assert Balanced(marked.values, marked.cash, marked.equity);
    FreeTradeLands(marked.values, marked.cash, marked.equity, marked.weights);
  }

  lemma FreeTradeLands(values: seq<Entry>, cash: real, equity: real, weights: seq<Entry>)
    requires Balanced(values, cash, equity) && LongOnly(weights)
    ensures var traded := ApplyTarget(values, cash, equity, weights, 0.0);
            && traded.equity == equity > 0.0
            && traded.values == Scale(weights, equity)
            && traded.cash == equity - Sum(traded.values)
  {
    ApplyTargetBalances(values, cash, equity, weights, 0.0);
  }

  // Rebalancing

  lemma ScaleBack(weights: seq<Entry>, equity: real)
    requires |weights| > 0
    ensures Scale(weights, equity)[1..] == Scale(weights[1..], equity)
  {
    forall k | 0 <= k < |weights| - 1 ensures Scale(weights, equity)[1..][k] == Scale(weights[1..], equity)[k] {
      assert weights[1..][k] == weights[k + 1];
    }
  }

  lemma {:induction false} GetScale(weights: seq<Entry>, equity: real, symbol: Symbol)
    ensures Get(Scale(weights, equity), symbol) == Get(weights, symbol) * equity
  {
    if |weights| > 0 {
      ScaleBack(weights, equity);
      GetScale(weights[1..], equity, symbol);
    }
  }

  lemma AbsScale(x: real, k: real)
    requires k > 0.0
    ensures Abs(x * k) == Abs(x) * k
  {
    assert x >= 0.0 ==> x * k >= 0.0;
    assert x < 0.0 ==> x * k < 0.0;
  }

  lemma {:induction false} GapsScale(weights: seq<Entry>, equity: real, target: seq<Entry>)
    requires equity > 0.0
    ensures TargetGaps(Scale(weights, equity), equity, target) == Reals.Times(equity, TargetGaps(weights, 1.0, target))
  {
    hide Reals.Times, TargetGap, Scale;
    Reals.TimesAdds(equity, 0.0, 0.0);
    if |target| > 0 {
      var front, last := target[..|target| - 1], target[|target| - 1];
      GapsScale(weights, equity, front);
      GapScale(weights, equity, last);
      Reals.TimesAdds(equity, TargetGaps(weights, 1.0, front), TargetGap(weights, 1.0, last));
    }
  }

  lemma GapScale(weights: seq<Entry>, equity: real, t: Entry)
    requires equity > 0.0
    ensures TargetGap(Scale(weights, equity), equity, t) == Reals.Times(equity, TargetGap(weights, 1.0, t))
  {
    hide Get, Scale;
    GetScale(weights, equity, t.symbol);
    var gap := t.amount * 1.0 - Get(weights, t.symbol);
    assert gap * equity == t.amount * equity - Get(weights, t.symbol) * equity;
    AbsScale(gap, equity);
  }

  lemma {:induction false} DroppedScale(weights: seq<Entry>, equity: real, target: seq<Entry>)
    requires equity > 0.0
    ensures Dropped(Scale(weights, equity), target) == Reals.Times(equity, Dropped(weights, target))
  {
    hide Reals.Times, Abs;
    Reals.TimesAdds(equity, 0.0, 0.0);
    if |weights| > 0 {
      var front, w := weights[..|weights| - 1], weights[|weights| - 1];
      ScaleFront(weights, equity);
      DroppedScale(front, equity, target);
      var scaled := Scale(weights, equity)[|weights| - 1];
      assert scaled == Entry(w.symbol, w.amount * equity);
      SaleScale(w.amount, equity, scaled.amount);
      hide Scale, Dropped;
      Reals.TimesAdds(equity, Dropped(front, target), Abs(0.0 - w.amount));
      DroppedLast(weights, target);
      DroppedLast(Scale(weights, equity), target);
      if !Has(target, w.symbol) {
        var sale := Abs(0.0 - w.amount);
        assert Dropped(weights, target) == Dropped(front, target) + sale;
        assert Reals.Times(equity, Dropped(weights, target))
            == Reals.Times(equity, Dropped(front, target)) + Reals.Times(equity, sale);
      }
    }
  }

  lemma DroppedLast(values: seq<Entry>, target: seq<Entry>)
    requires |values| > 0
    ensures var last := values[|values| - 1];
            Dropped(values, target) == Dropped(values[..|values| - 1], target)
              + (if Has(target, last.symbol) then 0.0 else Abs(0.0 - last.amount))
  {
  }

  lemma SaleScale(amount: real, equity: real, scaled: real)
    requires equity > 0.0 && scaled == amount * equity
    ensures Abs(0.0 - scaled) == Reals.Times(equity, Abs(0.0 - amount))
  {
    AbsScale(0.0 - amount, equity);
    assert (0.0 - amount) * equity == 0.0 - scaled;
  }

  /** On its weights, the value the book trades is equity times the turnover in weight space. */
  lemma TradedScales(weights: seq<Entry>, equity: real, target: seq<Entry>)
    requires equity > 0.0
    ensures TradedValue(Scale(weights, equity), equity, target) == WeightTurnover(weights, target) * equity
  {
    hide TargetGaps, Dropped, Scale;
    GapsScale(weights, equity, target);
    DroppedScale(weights, equity, target);
    Reals.TimesAdds(equity, TargetGaps(weights, 1.0, target), Dropped(weights, target));
  }

  lemma RebalanceMatches(weights: seq<Entry>, cash: real, equity: real, target: seq<Entry>, costRate: real)
    requires LongOnly(weights) && LongOnly(target) && 0.0 <= costRate < 0.5
    requires Balanced(Scale(weights, equity), cash, equity)
    ensures var traded := ApplyTarget(Scale(weights, equity), cash, equity, target, costRate);
            && traded.turnover == WeightTurnover(weights, target)
            && traded.equity == equity * (1.0 - costRate * WeightTurnover(weights, target))
            && traded.equity > 0.0
            && traded.values == Scale(target, traded.equity)
            && traded.cash == traded.equity - Sum(traded.values)
            && Positive(target) == target
  {
    hide Scale, Sum, Positive, TradedValue, WeightTurnover;
    var values := Scale(weights, equity);
    ApplyTargetBalances(values, cash, equity, target, costRate);
    PositiveIsAll(target);
    TradedScales(weights, equity, target);
    Reals.QuotientIs(TradedValue(values, equity, target), equity, WeightTurnover(weights, target));
  }

  /** The charged part of a rebalance day. */
  lemma ChargedRebalance(env: Env, index: nat, st: FrozenState, b: FreeBook)
    requires Good(env) && index < |env.panel.dates| && OnWeights(st, b) && SameReport(st, b)
    ensures OnWeights(FrozenRebalance(env, index, st), FreeCharge(env, index, b))
    ensures SameReport(FrozenRebalance(env, index, st), FreeCharge(env, index, b))
  {
    hide WellFormed, Decide, ApplyTarget, Scale, Sum, Positive, WeightTurnover, Balanced, RecordedPrices, ScoresOf;
    hide CandidatesOf, LongOnly, CostRate;
    if index in env.rebalance {
      OnWeightsIsBalanced(st, b);
      CostRateOf(env);
      DecisionsAreSound(env, index);
      RebalanceMatches(st.weights, b.cash, st.equity, Decide(env, index).weights, CostRate(env.params));
      var target := Decide(env, index).weights;
      var after, charged := FrozenRebalance(env, index, st), FreeCharge(env, index, b);
      assert after.weights == target == charged.weights;
      assert after.equity == charged.equity > 0.0;
      assert LongOnly(target);
    }
  }

  lemma RecordsMatch(st: FrozenState, b: FreeBook)
    requires OnWeights(st, b) && SameReport(st, b)
    ensures OnWeights(FrozenRecord(st), FreeRecord(b)) && SameReport(FrozenRecord(st), FreeRecord(b))
  {
    hide Sum, Scale, LongOnly;
    OnWeightsIsBalanced(st, b);
    Reals.QuotientIs(Sum(b.values), b.equity, Sum(st.weights));
  }

  lemma ResetKeepsReport(env: Env, index: nat, st: FrozenState, b: FreeBook)
    requires SameReport(st, b)
    ensures SameReport(FrozenMark(env, index, st), FreeReset(FreeMark(env, index, b)))
  {
    hide ApplyTarget, MarkValues, Sum, DayReturn;
  }

  lemma FreeDayMatches(env: Env, index: nat, st: FrozenState, b: FreeBook)
    requires Good(env) && env.params.stopLoss.None? && index < |env.panel.dates|
    requires OnWeights(st, b) && SameReport(st, b)
    ensures OnWeights(FrozenStep(env, index, st), FreeDay(env, index, b))
    ensures SameReport(FrozenStep(env, index, st), FreeDay(env, index, b))
  {
    hide OnWeights, SameReport, FreeMark, FreeReset, FreeCharge, FreeRecord;
    hide FrozenMark, FrozenRebalance, FrozenStops, FrozenRecord;
    FreeResetIsTheDayReturn(env, index, st, b);
    ResetKeepsReport(env, index, st, b);
    var marked, reset := FrozenMark(env, index, st), FreeReset(FreeMark(env, index, b));
    NoStopsFrozen(env, index, marked);
    ChargedRebalance(env, index, marked, reset);
    RecordsMatch(FrozenRebalance(env, index, marked), FreeCharge(env, index, reset));
  }

  /** For any panel and any cost rate, with no stop loss: the earlier simulator's equity curve, total turnover and
      invested fractions are those of a drifting book that trades back to its last weights for free every day. */
  lemma {:induction false} FrozenIsAFreeRebalance(env: Env, n: nat)
    requires Good(env) && env.params.stopLoss.None? && n <= |env.panel.dates|
    ensures OnWeights(FrozenRun(env, n), FreeRun(env, n))
    ensures SameReport(FrozenRun(env, n), FreeRun(env, n))
  {
    hide FrozenStep, FreeDay, OnWeights, SameReport;
    if n == 0 {
      BothStartInCash();
    } else {
      FrozenIsAFreeRebalance(env, n - 1);
      FreeDayMatches(env, n - 1, FrozenRun(env, n - 1), FreeRun(env, n - 1));
    }
  }

  lemma BothStartInCash()
    ensures OnWeights(FROZEN_INITIAL, FREE_INITIAL) && SameReport(FROZEN_INITIAL, FREE_INITIAL)
  {
    assert Scale([], 1.0) == [];
  }
}
