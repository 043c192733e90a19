/** The stop loss of the earlier accounting: which weights it zeroes, from which price, and what it counts. */
module FrozenStops {
  import opened Calendar
  import opened ConstantWeights
  import opened Drift
  import opened Ledger
  import opened Market
  import opened Options
  import opened OrderQueue
  import opened Selection
  import opened Solvency
  import Sorting
  import StopLoss

  /** Every name carries the bar, priced or missing, of day `day`. */
  ghost predicate RecordedOn(env: Env, st: FrozenState, day: nat) {
    forall e :: e in st.weights ==>
      && e.symbol in env.panel.series && day < |env.panel.series[e.symbol]|
      && e.symbol in st.entryPrice && st.entryPrice[e.symbol] == env.panel.series[e.symbol][day]
  }

  /** The recorded bars are those of the last scheduled decision. */
  ghost predicate RecordedAtLast(env: Env, st: FrozenState, days: seq<nat>) {
    if |days| == 0 then st.weights == [] else RecordedOn(env, st, days[|days| - 1])
  }

  lemma ZeroingKeepsSymbols(env: Env, index: nat, st: FrozenState)
    ensures var after := FrozenStops(env, index, st);
            forall e :: e in after.weights ==> exists x :: x in st.weights && x.symbol == e.symbol
    ensures FrozenStops(env, index, st).entryPrice == st.entryPrice
    ensures st.weights == [] ==> FrozenStops(env, index, st).weights == []
  {
    hide FrozenStopHit, CountStops;
    var after := FrozenStops(env, index, st);
    forall e | e in after.weights ensures exists x :: x in st.weights && x.symbol == e.symbol {
      var k :| 0 <= k < |after.weights| && after.weights[k] == e;
      assert st.weights[k] in st.weights && st.weights[k].symbol == e.symbol;
    }
  }

  lemma StopsKeepTheRecord(env: Env, index: nat, st: FrozenState, days: seq<nat>)
    requires RecordedAtLast(env, st, days)
    ensures RecordedAtLast(env, FrozenStops(env, index, st), days)
  {
    ZeroingKeepsSymbols(env, index, st);
    hide FrozenStops;
  }

  lemma DecisionRecords(env: Env, t: nat, st: FrozenState)
    requires WellFormed(env) && t < |env.panel.dates|
    ensures RecordedOn(env, FrozenFill(env, t, st, Decide(env, t).decision), t)
  {
    DecisionsAreSound(env, t);
    hide Decide, WeightTurnover, CandidatesOf, ScoresOf, Sum, DistinctSymbols, ValidParams, AscendingDates;
    var target := TargetOf(Decide(env, t).decision.positions);
    var after := FrozenFill(env, t, st, Decide(env, t).decision);
    assert after.weights == Positive(target) && after.entryPrice == RecordedPrices(env.panel, after.weights, t);
    forall e | e in after.weights
      ensures e.symbol in env.panel.series && t < |env.panel.series[e.symbol]|
      ensures e.symbol in after.entryPrice && after.entryPrice[e.symbol] == env.panel.series[e.symbol][t]
    {
      assert e in target;
    }
  }

  /** The earlier simulator measures its stop from the bar of its last scheduled decision. */
  lemma {:induction false} RecordIsTheLastDecision(env: Env, n: nat)
    requires WellFormed(env) && Increasing(env.rebalance) && n <= |env.panel.dates|
    ensures RecordedAtLast(env, FrozenRun(env, n), FilledDays(env.rebalance, 0, n))
  {
    hide FrozenRun, FilledDays, WellFormed, RecordedAtLast;
    if n == 0 {
      NothingRecorded(env);
    } else {
      RecordIsTheLastDecision(env, n - 1);
      DayRecords(env, n - 1);
      FilledDaysGrow(env.rebalance, 0, n - 1);
    }
  }

  lemma NothingRecorded(env: Env)
    requires WellFormed(env)
    ensures RecordedAtLast(env, FrozenRun(env, 0), FilledDays(env.rebalance, 0, 0))
  {
    NothingFilledAtFirst(env.rebalance, 0);
    FrozenStart(env);
  }

  lemma DayRecords(env: Env, t: nat)
    requires WellFormed(env) && Increasing(env.rebalance) && t < |env.panel.dates|
    requires RecordedAtLast(env, FrozenRun(env, t), FilledDays(env.rebalance, 0, t))
    ensures RecordedAtLast(env, FrozenRun(env, t + 1), FilledDays(env.rebalance, 0, t + 1))
  {
    hide FrozenRun, FilledDays, WellFormed, FrozenStops, FrozenFill, Decide, DayReturn, RecordedOn;
    FrozenRunStep(env, t);
    FilledDaysGrow(env.rebalance, 0, t);
    var st, days := FrozenRun(env, t), FilledDays(env.rebalance, 0, t);
    var marked := FrozenMark(env, t, st);
    MarkKeepsTheRecord(env, t, st, days);
    StopsKeepTheRecord(env, t, marked, days);
    var stopped := FrozenStops(env, t, marked);
    if t in env.rebalance {
      DecisionRecords(env, t, stopped);
      assert (days + [t])[|days|] == t;
    } else {
      assert days + [] == days;
    }
    ReportKeepsTheRecord(env, FrozenRebalance(env, t, stopped), FilledDays(env.rebalance, 0, t + 1));
  }

  lemma MarkKeepsTheRecord(env: Env, t: nat, st: FrozenState, days: seq<nat>)
    requires RecordedAtLast(env, st, days)
    ensures RecordedAtLast(env, FrozenMark(env, t, st), days)
  {
    hide DayReturn;
  }

  lemma ReportKeepsTheRecord(env: Env, st: FrozenState, days: seq<nat>)
    requires RecordedAtLast(env, st, days)
    ensures RecordedAtLast(env, FrozenRecord(st), days)
  {
    hide Sum;
  }

  /** The close of day `t` is at or below (1 - stop) times that of the last scheduled decision. */
  ghost predicate FallenSinceDecision(env: Env, t: nat, symbol: Symbol) {
    var days := FilledDays(env.rebalance, 0, t);
    && env.params.stopLoss.Some? && |days| > 0
    && StopLoss.FallenSince(env.panel, env.params.stopLoss.value, days[|days| - 1], t, symbol)
  }

  lemma HitIsTheFall(env: Env, t: nat, st: FrozenState, e: Entry)
    requires PositivePrices(env.panel) && e in st.weights
    requires RecordedAtLast(env, st, FilledDays(env.rebalance, 0, t))
    ensures FrozenStopHit(env, t, st.entryPrice, e.symbol) <==> FallenSinceDecision(env, t, e.symbol)
  {
    hide FilledDays;
    var days := FilledDays(env.rebalance, 0, t);
    if |days| > 0 {
      HitIsTheFallFrom(env, t, st, e, days[|days| - 1]);
      hide FrozenStopHit, StopLoss.FallenSince;
    }
  }

  lemma HitIsTheFallFrom(env: Env, t: nat, st: FrozenState, e: Entry, last: nat)
    requires PositivePrices(env.panel) && e in st.weights && RecordedOn(env, st, last)
    ensures FrozenStopHit(env, t, st.entryPrice, e.symbol) <==>
              && env.params.stopLoss.Some?
              && StopLoss.FallenSince(env.panel, env.params.stopLoss.value, last, t, e.symbol)
  {
    var s := e.symbol;
    RecordIsTheBar(env, st, e, last);
    hide RecordedOn, ClosesAt, Bar, PositivePrices, StopLoss.FallenSince;
    StopLoss.BarsAreCloses(env.panel, s, t);
    if env.params.stopLoss.Some? {
      StopLoss.FallOfTwoBars(env.panel, env.params.stopLoss.value, last, t, s, Bar(env.panel, s, t), st.entryPrice[s]);
    }
  }

  lemma RecordIsTheBar(env: Env, st: FrozenState, e: Entry, last: nat)
    requires PositivePrices(env.panel) && e in st.weights && RecordedOn(env, st, last)
    ensures e.symbol in st.entryPrice
    ensures forall p :: ClosesAt(env.panel, e.symbol, last, p) <==> st.entryPrice[e.symbol] == Some(p)
    ensures st.entryPrice[e.symbol].Some? ==> st.entryPrice[e.symbol].value > 0.0
  {
  }

  /** On every day the earlier stop zeroes exactly the weights that have fallen, for free, and counts those it held. */
  lemma StopsZeroTheFallen(env: Env, t: nat)
    requires Good(env) && Increasing(env.rebalance) && t < |env.panel.dates|
    ensures var st := FrozenMark(env, t, FrozenRun(env, t)); var after := FrozenStops(env, t, st);
            && |after.weights| == |st.weights| && after.equity == st.equity && after.turnover == st.turnover
            && (forall k :: 0 <= k < |st.weights| ==>
                  after.weights[k] == if FallenSinceDecision(env, t, st.weights[k].symbol)
                                      then Entry(st.weights[k].symbol, 0.0) else st.weights[k])
            && after.stopExits == st.stopExits + Sorting.Count(st.weights,
                 (e: Entry) => FrozenStopHit(env, t, st.entryPrice, e.symbol) && e.amount > 0.0)
  {
    RecordIsTheLastDecision(env, t);
    var before, days := FrozenRun(env, t), FilledDays(env.rebalance, 0, t);
    MarkKeepsTheRecord(env, t, before, days);
    var st := FrozenMark(env, t, before);
    hide FrozenRun, FilledDays, WellFormed, FrozenMark, FrozenStopHit, FallenSinceDecision, RecordedAtLast;
    forall k | 0 <= k < |st.weights|
      ensures FrozenStopHit(env, t, st.entryPrice, st.weights[k].symbol)
              <==> FallenSinceDecision(env, t, st.weights[k].symbol)
    {
      HitIsTheFall(env, t, st, st.weights[k]);
    }
    StopsAreCounted(env, t, st.entryPrice, st.weights);
  }

  lemma {:induction false} StopsAreCounted(
      env: Env, index: nat, entryPrice: map<Symbol, Option<real>>, weights: seq<Entry>)
    ensures CountStops(env, index, entryPrice, weights) == Sorting.Count(weights,
              (e: Entry) => FrozenStopHit(env, index, entryPrice, e.symbol) && e.amount > 0.0)
  {
    hide FrozenStopHit;
    var stopped := (e: Entry) => FrozenStopHit(env, index, entryPrice, e.symbol) && e.amount > 0.0;
    if |weights| > 0 {
      var front, last := weights[..|weights| - 1], weights[|weights| - 1];
      StopsAreCounted(env, index, entryPrice, front);
      Sorting.CountConcat(front, [last], stopped);
      assert weights == front + [last] && [last][1..] == [];
    }
  }
}
