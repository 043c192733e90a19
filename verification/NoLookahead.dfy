/** Two runs that could not yet tell their inputs apart are the same run so far. */
module NoLookahead {
  import opened Calendar
  import opened Claims
  import opened ConstantWeights
  import opened Drift
  import opened Ledger
  import opened Market
  import opened Options
  import opened OrderQueue
  import opened Selection
  import opened SignalIntake
  import Sorting

  /** Same spec; the same dates, bars and scheduled days up to day `t`; and signal lists that hold, in any order,
      the same entries effective by that day. What comes later is unconstrained. */
  ghost predicate AgreeThrough(a: Env, b: Env, t: nat) {
    && WellFormed(a) && WellFormed(b)
    && a.symbols == b.symbols && a.params == b.params
    && t < |a.panel.dates| && t < |b.panel.dates|
    && (forall i :: 0 <= i <= t ==> a.panel.dates[i] == b.panel.dates[i])
    && SameBarsThrough(a.panel, b.panel, t)
    && (forall i :: 0 <= i <= t ==> (i in a.rebalance <==> i in b.rebalance))
    && Sorting.Sorted(a.signals, SignalLe) && Sorting.Sorted(b.signals, SignalLe)
    && (forall s: ClaimSignal :: s.effective <= Ordinal(a.panel.dates[t]) ==>
          multiset(a.signals)[s] == multiset(b.signals)[s])
  }

  lemma SameEffective(a: Env, b: Env, t: nat)
    requires AgreeThrough(a, b, t)
    ensures multiset(EffectiveBy(a.signals, Ordinal(a.panel.dates[t])))
         == multiset(EffectiveBy(b.signals, Ordinal(b.panel.dates[t])))
  {
    var day := Ordinal(a.panel.dates[t]);
    hide EffectiveBy, Ordinal, WellFormed, SameBarsThrough, Sorting.Sorted;
    forall s ensures multiset(EffectiveBy(a.signals, day))[s] == multiset(EffectiveBy(b.signals, day))[s] {
      EffectiveCounts(a.signals, day, s);
      EffectiveCounts(b.signals, day, s);
    }
  }

  lemma BarsRead(a: Env, b: Env, t: nat, symbol: Symbol, index: int)
    requires AgreeThrough(a, b, t) && index <= t
    ensures Bar(a.panel, symbol, index) == Bar(b.panel, symbol, index)
  {
    hide AscendingDates, ValidParams, SameBarsThrough, Bar, Sorting.Sorted, Ordinal;
    SameBarsRead(a.panel, b.panel, t, symbol, index);
  }

  lemma ClaimsAgree(a: Env, b: Env, t: nat, index: nat)
    requires AgreeThrough(a, b, t) && index <= t
    ensures ActiveGroups(a.signals, Ordinal(a.panel.dates[index]))
            == ActiveGroups(b.signals, Ordinal(b.panel.dates[index]))
  {
    var day, cut := Ordinal(a.panel.dates[index]), Ordinal(a.panel.dates[t]);
    if index < t {
      EarlierDaysHaveSmallerNumbers(a.panel.dates[index], a.panel.dates[t]);
    }
    assert day <= cut;
    SameEffective(a, b, t);
    hide ActiveGroups, Active;
    forall s
      ensures s in ActiveGroups(a.signals, day) <==> s in ActiveGroups(b.signals, day)
      ensures s in ActiveGroups(a.signals, day) ==> ActiveGroups(a.signals, day)[s] == ActiveGroups(b.signals, day)[s]
    {
      SameEffectiveSameActive(a.signals, b.signals, cut, day, s);
      GroupsAreActive(a.signals, day, s);
      GroupsAreActive(b.signals, day, s);
    }
  }

  lemma {:induction false} EligiblesAgree(
      a: Env, b: Env, t: nat, index: nat, symbols: seq<Symbol>, scores: map<Symbol, real>)
    requires AgreeThrough(a, b, t) && index <= t
    ensures Eligibles(a.panel, symbols, index, a.params, scores) == Eligibles(b.panel, symbols, index, b.params, scores)
  {
    if |symbols| > 0 {
      EligiblesAgree(a, b, t, index, symbols[..|symbols| - 1], scores);
      BarsRead(a, b, t, symbols[|symbols| - 1], index);
      BarsRead(a, b, t, symbols[|symbols| - 1], index - a.params.lookbackDays);
      hide WellFormed, SameBarsThrough, Bar, Sorting.Sorted, Ordinal, PassesGates;
    }
  }

  lemma DecisionsAgree(a: Env, b: Env, t: nat, index: nat)
    requires AgreeThrough(a, b, t) && index <= t
    ensures Decide(a, index) == Decide(b, index)
  {
    ClaimsAgree(a, b, t, index);
    EligiblesAgree(a, b, t, index, a.symbols, ClaimScores(ActiveGroups(a.signals, Ordinal(a.panel.dates[index]))));
  }

  lemma MarksAgree(a: Env, b: Env, t: nat, index: nat, st: State)
    requires AgreeThrough(a, b, t) && index <= t
    ensures Mark(a, index, st) == Mark(b, index, st)
  {
    hide AgreeThrough, MarkValues, Sum;
    MarkedValuesAgree(a, b, t, index, st.values);
  }

  lemma MarkedValuesAgree(a: Env, b: Env, t: nat, index: nat, values: seq<Entry>)
    requires AgreeThrough(a, b, t) && index <= t
    ensures MarkValues(a.panel, values, index) == MarkValues(b.panel, values, index)
  {
    hide AgreeThrough, Growth;
    forall s ensures Growth(a.panel, s, index) == Growth(b.panel, s, index) {
      GrowthAgrees(a, b, t, index, s);
    }
    var ma, mb := MarkValues(a.panel, values, index), MarkValues(b.panel, values, index);
    forall k | 0 <= k < |values| ensures ma[k] == mb[k] {
      assert Growth(a.panel, values[k].symbol, index) == Growth(b.panel, values[k].symbol, index);
    }
  }

  lemma GrowthAgrees(a: Env, b: Env, t: nat, index: nat, s: Symbol)
    requires AgreeThrough(a, b, t) && index <= t
    ensures Growth(a.panel, s, index) == Growth(b.panel, s, index)
  {
    BarsRead(a, b, t, s, index - 1);
    BarsRead(a, b, t, s, index);
    hide AgreeThrough, Bar;
  }

  lemma {:induction false} ExitsAgree(a: Env, b: Env, t: nat, index: nat, st: State, values: seq<Entry>)
    requires AgreeThrough(a, b, t) && index <= t
    ensures NewExits(a, index, st, values) == NewExits(b, index, st, values)
  {
    if |values| > 0 {
      ExitsAgree(a, b, t, index, st, values[..|values| - 1]);
      BarsRead(a, b, t, values[|values| - 1].symbol, index);
      assert a.params == b.params;
      hide AgreeThrough, Bar;
    }
  }

  lemma {:induction false} FillsAgree(a: Env, b: Env, t: nat, index: nat, st: State, due: seq<Order>)
    requires AgreeThrough(a, b, t) && index <= t
    ensures FillAll(a, index, st, due) == FillAll(b, index, st, due)
  {
    if |due| > 0 {
      FillsAgree(a, b, t, index, st, due[..|due| - 1]);
      FillAgrees(a, b, t, index, FillAll(a, index, st, due[..|due| - 1]), due[|due| - 1]);
    }
  }

  lemma FillAgrees(a: Env, b: Env, t: nat, index: nat, st: State, order: Order)
    requires AgreeThrough(a, b, t) && index <= t
    ensures Fill(a, index, st, order) == Fill(b, index, st, order)
  {
    hide CandidatesOf, LogOf, Get, Remove, ApplyTarget, CostRate, WellFormed, EffectiveBy, Sorting.Sorted;
    assert a.panel.dates[index] == b.panel.dates[index] && a.params == b.params;
    if order.Rebalance? {
      var values := ApplyTarget(st.values, st.cash, st.equity, order.weights, CostRate(a.params)).values;
      EntryPricesAgree(a, b, t, index, values);
    }
    hide AgreeThrough;
  }

  lemma EntryPricesAgree(a: Env, b: Env, t: nat, index: nat, values: seq<Entry>)
    requires AgreeThrough(a, b, t) && index <= t
    ensures EntryPrices(a.panel, values, index) == EntryPrices(b.panel, values, index)
  {
    forall s ensures Bar(a.panel, s, index) == Bar(b.panel, s, index) {
      BarsRead(a, b, t, s, index);
    }
    hide AgreeThrough, Bar;
  }

  lemma QueuesAgree(a: Env, b: Env, t: nat, index: nat, st: State)
    requires AgreeThrough(a, b, t) && index <= t
    ensures Queued(a, index, st) == Queued(b, index, st)
  {
    hide Decide, NewExits, Mark;
    MarksAgree(a, b, t, index, st);
    var marked := Mark(a, index, st);
    ExitsAgree(a, b, t, index, marked, marked.values);
    DecisionsAgree(a, b, t, index);
  }

  lemma StepsAgree(a: Env, b: Env, t: nat, index: nat, st: State)
    requires AgreeThrough(a, b, t) && index <= t
    ensures Step(a, index, st) == Step(b, index, st)
  {
    hide Queued, FillAll, DueBy, DueAfter, Record;
    QueuesAgree(a, b, t, index, st);
    var q := Queued(a, index, st);
    FillsAgree(a, b, t, index, q.(pending := DueAfter(q.pending, index)), DueBy(q.pending, index));
  }

  /** No look-ahead over whole runs: book, queue, curve, turnover, holdings log and candidates agree through `t`. */
  lemma {:induction false} RunsAgree(a: Env, b: Env, t: nat, n: nat)
    requires AgreeThrough(a, b, t) && n <= t + 1
    ensures Run(a, n) == Run(b, n)
  {
    hide Step, AgreeThrough;
    AgreedEnvsAreWellFormed(a, b, t);
    if n > 0 {
      RunsAgree(a, b, t, n - 1);
      StepsAgree(a, b, t, n - 1, Run(a, n - 1));
    }
  }

  lemma AgreedEnvsAreWellFormed(a: Env, b: Env, t: nat)
    requires AgreeThrough(a, b, t)
    ensures WellFormed(a) && WellFormed(b) && t < |a.panel.dates| && t < |b.panel.dates|
  {
  }

  lemma IssuedAgrees(a: Env, b: Env, t: nat, index: nat)
    requires AgreeThrough(a, b, t) && index <= t && Run(a, index) == Run(b, index)
    ensures Issued(a, index) == Issued(b, index)
  {
    hide Run, Decide, NewExits, Mark;
    MarksAgree(a, b, t, index, Run(a, index));
    var marked := Mark(a, index, Run(a, index));
    ExitsAgree(a, b, t, index, marked, marked.values);
    DecisionsAgree(a, b, t, index);
  }

  /** What is issued on a day, and so what fills `lag` days later, was fixed by the inputs up to that day. */
  lemma FillsWereFixedByTheDecisionDay(a: Env, b: Env, t: nat, index: nat)
    requires AgreeThrough(a, b, t) && index <= t
    requires index + a.params.lag < |a.panel.dates| && index + a.params.lag < |b.panel.dates|
    ensures Due(a, index + a.params.lag) == Due(b, index + b.params.lag) == Issued(a, index)
    ensures index in a.rebalance <==> index in b.rebalance
    ensures Decide(a, index) == Decide(b, index)
  {
    hide Run, Decide, Issued;
    RunsAgree(a, b, t, index);
    IssuedAgrees(a, b, t, index);
    DecisionsAgree(a, b, t, index);
  }

  // The earlier accounting

  lemma {:induction false} DayReturnsAgree(a: Env, b: Env, t: nat, index: nat, weights: seq<Entry>)
    requires AgreeThrough(a, b, t) && index <= t
    ensures DayReturn(a.panel, weights, index) == DayReturn(b.panel, weights, index)
  {
    if |weights| > 0 {
      hide AscendingDates, ValidParams, EffectiveBy;
      var last := weights[|weights| - 1];
      DayReturnsAgree(a, b, t, index, weights[..|weights| - 1]);
      BarsRead(a, b, t, last.symbol, index - 1);
      BarsRead(a, b, t, last.symbol, index);
      hide AgreeThrough, Bar;
    }
  }

  lemma {:induction false} StopCountsAgree(
      a: Env, b: Env, t: nat, index: nat, entryPrice: map<Symbol, Option<real>>, weights: seq<Entry>)
    requires AgreeThrough(a, b, t) && index <= t
    ensures CountStops(a, index, entryPrice, weights) == CountStops(b, index, entryPrice, weights)
  {
    if |weights| > 0 {
      hide AscendingDates, ValidParams, EffectiveBy;
      StopCountsAgree(a, b, t, index, entryPrice, weights[..|weights| - 1]);
      BarsRead(a, b, t, weights[|weights| - 1].symbol, index);
      assert a.params == b.params;
      hide AgreeThrough, Bar;
    }
  }

  lemma FrozenStopsAgree(a: Env, b: Env, t: nat, index: nat, st: FrozenState)
    requires AgreeThrough(a, b, t) && index <= t
    ensures FrozenStops(a, index, st) == FrozenStops(b, index, st)
  {
    StopCountsAgree(a, b, t, index, st.entryPrice, st.weights);
    hide CountStops;
    forall s ensures Bar(a.panel, s, index) == Bar(b.panel, s, index) {
      BarsRead(a, b, t, s, index);
    }
    assert a.params == b.params;
    hide AgreeThrough, Bar;
    assert Zeroed(a, index, st.entryPrice, st.weights) == Zeroed(b, index, st.entryPrice, st.weights);
  }

  lemma FrozenFillsAgree(a: Env, b: Env, t: nat, index: nat, st: FrozenState, decision: Decision)
    requires AgreeThrough(a, b, t) && index <= t
    ensures FrozenFill(a, index, st, decision) == FrozenFill(b, index, st, decision)
  {
    hide Positive, WeightTurnover, TargetOf, CandidatesOf, ScoresOf;
    forall s ensures Bar(a.panel, s, index) == Bar(b.panel, s, index) {
      BarsRead(a, b, t, s, index);
    }
    assert a.params == b.params;
    hide AgreeThrough, Bar;
    var weights := Positive(TargetOf(decision.positions));
    assert RecordedPrices(a.panel, weights, index) == RecordedPrices(b.panel, weights, index);
  }

  lemma FrozenMarksAgree(a: Env, b: Env, t: nat, index: nat, st: FrozenState)
    requires AgreeThrough(a, b, t) && index <= t
    ensures FrozenMark(a, index, st) == FrozenMark(b, index, st)
  {
    DayReturnsAgree(a, b, t, index, st.weights);
    hide AgreeThrough, DayReturn, Grown;
  }

  lemma FrozenRebalancesAgree(a: Env, b: Env, t: nat, index: nat, st: FrozenState)
    requires AgreeThrough(a, b, t) && index <= t
    ensures FrozenRebalance(a, index, st) == FrozenRebalance(b, index, st)
  {
    hide WellFormed, Decide, FrozenFill, EffectiveBy, Ordinal;
    DecisionsAgree(a, b, t, index);
    FrozenFillsAgree(a, b, t, index, st, Decide(a, index).decision);
    assert index in a.rebalance <==> index in b.rebalance;
  }

  lemma FrozenStepsAgree(a: Env, b: Env, t: nat, index: nat, st: FrozenState)
    requires AgreeThrough(a, b, t) && index <= t
    ensures FrozenStep(a, index, st) == FrozenStep(b, index, st)
  {
    AgreedEnvsAreWellFormed(a, b, t);
    hide AgreeThrough, WellFormed, FrozenMark, FrozenStops, FrozenRebalance, FrozenRecord;
    FrozenMarksAgree(a, b, t, index, st);
    var marked := FrozenMark(a, index, st);
    FrozenStopsAgree(a, b, t, index, marked);
    FrozenRebalancesAgree(a, b, t, index, FrozenStops(a, index, marked));
  }

  /** The earlier simulator cannot look ahead either. */
  lemma {:induction false} FrozenRunsAgree(a: Env, b: Env, t: nat, n: nat)
    requires AgreeThrough(a, b, t) && n <= t + 1
    ensures FrozenRun(a, n) == FrozenRun(b, n)
  {
    hide FrozenStep, AgreeThrough;
    AgreedEnvsAreWellFormed(a, b, t);
    hide WellFormed;
    if n > 0 {
      FrozenRunsAgree(a, b, t, n - 1);
      FrozenStepsAgree(a, b, t, n - 1, FrozenRun(a, n - 1));
    }
  }
}
