/** A run that holds its whole universe equally is its own equal-weight baseline. */
module EqualWeight {
  import opened Benchmark
  import opened Calendar
  import opened Claims
  import opened Drift
  import opened Ledger
  import opened Market
  import opened Options
  import opened OrderQueue
  import opened Ranking
  import opened Selection
  import opened SelectionLaws
  import opened Solvency
  import Reals
  import Sorting

  /** Every bar priced, no gate, no required support, room for the whole universe, no cost and no stop. */
  ghost predicate WholeUniverse(env: Env) {
    && Good(env)
    && |env.symbols| > 0
    && (forall s, i :: s in env.symbols && 0 <= i < |env.panel.dates| ==> Bar(env.panel, s, i).Some?)
    && (forall i :: i in env.rebalance ==> i >= env.params.lookbackDays)
    && env.params.gates == [] && !env.params.requireClaimSupport
    && env.params.topN >= |env.symbols| && 1.0 / |env.symbols| as real <= env.params.maxWeight
    && env.params.costBps == 0.0 && env.params.stopLoss.None?
  }

  // The decided target

  lemma {:induction false} EveryNameIsEligible(env: Env, symbols: seq<Symbol>, index: nat, scores: map<Symbol, real>)
    requires PositivePrices(env.panel) && env.params.gates == [] && !env.params.requireClaimSupport
    requires index >= env.params.lookbackDays
    requires forall s :: s in symbols ==>
               Bar(env.panel, s, index).Some? && Bar(env.panel, s, index - env.params.lookbackDays).Some?
    ensures |Eligibles(env.panel, symbols, index, env.params, scores)| == |symbols|
    ensures forall k :: 0 <= k < |symbols| ==>
              Eligibles(env.panel, symbols, index, env.params, scores)[k].symbol == symbols[k]
  {
    if |symbols| > 0 {
      assert symbols[|symbols| - 1] in symbols;
      assert forall s :: s in symbols[..|symbols| - 1] ==> s in symbols;
      EveryNameIsEligible(env, symbols[..|symbols| - 1], index, scores);
    }
  }

  /** A target that gives every universe name the same share and nothing to anyone else. */
  ghost predicate EqualTarget(target: seq<Entry>, symbols: seq<Symbol>, amount: real) {
    && DistinctSymbols(target)
    && |target| == |symbols|
    && (forall e :: e in target ==> e.symbol in symbols && e.amount == amount)
    && (forall s :: s in symbols ==> Has(target, s))
  }

  lemma DecisionIsEqual(env: Env, index: nat)
    requires WholeUniverse(env) && index in env.rebalance && index < |env.panel.dates|
    ensures EqualTarget(Decide(env, index).weights, env.symbols, 1.0 / |env.symbols| as real)
  {
    var scores := ClaimScores(ActiveGroups(env.signals, Ordinal(env.panel.dates[index])));
    var es := Eligibles(env.panel, env.symbols, index, env.params, scores);
    EveryNameIsEligible(env, env.symbols, index, scores);
    EligiblesComeFromSymbols(env.panel, env.symbols, index, env.params, scores);
    ChoiceIsEqual(es, env.symbols, env.params);
  }

  lemma ChoiceIsEqual(es: seq<Eligible>, symbols: seq<Symbol>, params: Params)
    requires ValidParams(params) && DistinctNames(es) && |es| == |symbols| > 0
    requires forall k :: 0 <= k < |symbols| ==> es[k].symbol == symbols[k]
    requires params.topN >= |symbols| && 1.0 / |symbols| as real <= params.maxWeight
    ensures EqualTarget(TargetOf(Choose(es, params)), symbols, 1.0 / |symbols| as real)
  {
    hide RankOf, ScoreOne, Choose, Beats;
    ChosenBeatTheRest(es, params);
    TargetIsLongOnly(es, params);
    var ps, target := Choose(es, params), TargetOf(Choose(es, params));
    assert |ps| == |es|;
    forall e | e in target ensures e.symbol in symbols && e.amount == 1.0 / |symbols| as real {
      var i :| 0 <= i < |target| && target[i] == e;
      assert ps[i] in ps;
      var x :| x in es && Restates(ps[i], ScoreOne(es, x, params));
      ScoreKeepsSymbol(es, x, params);
      var k :| 0 <= k < |es| && es[k] == x;
      assert symbols[k] in symbols;
    }
    forall s | s in symbols ensures Has(target, s) {
      EveryoneChosen(es, symbols, params, s);
    }
  }

  /** With as many places as names, nobody is left out. */
  lemma EveryoneChosen(es: seq<Eligible>, symbols: seq<Symbol>, params: Params, s: Symbol)
    requires ValidParams(params) && DistinctNames(es) && |es| == |symbols| > 0 && params.topN >= |symbols|
    requires s in symbols && forall k :: 0 <= k < |symbols| ==> es[k].symbol == symbols[k]
    ensures Has(TargetOf(Choose(es, params)), s)
  {
    OrderedIsStrict(es, params);
    var k :| 0 <= k < |symbols| && symbols[k] == s;
    var j := PlaceOf(es, params, k);
    var target := TargetOf(Choose(es, params));
    assert target[j].symbol == s && target[j] in target;
  }

  // Two dictionaries with the same content

  ghost predicate SameDictionary(a: seq<Entry>, b: seq<Entry>) {
    && DistinctSymbols(a) && DistinctSymbols(b)
    && (forall s :: Has(a, s) <==> Has(b, s))
    && (forall s :: Get(a, s) == Get(b, s))
  }

  lemma {:induction false} GetAfterRemove(a: seq<Entry>, gone: Symbol, s: Symbol)
    ensures Get(Remove(a, gone), s) == if s == gone then 0.0 else Get(a, s)
    ensures Has(Remove(a, gone), s) <==> s != gone && Has(a, s)
  {
    if |a| > 0 {
      GetAfterRemove(a[1..], gone, s);
    }
  }

  lemma {:induction false} SameDictionarySameSum(a: seq<Entry>, b: seq<Entry>)
    requires SameDictionary(a, b)
    ensures Sum(a) == Sum(b)
    decreases |a|
  {
    if |a| == 0 {
      EmptyDictionary(a, b);
    } else {
      hide Sum, Get, Remove, Has, SameDictionary;
      var s := a[0].symbol;
      SumsAfterRemove(a, b, s);
      RemoveShrinks(a, s);
      RemovedAlike(a, b, s);
      SameDictionarySameSum(Remove(a, s), Remove(b, s));
    }
  }

  lemma EmptyDictionary(a: seq<Entry>, b: seq<Entry>)
    requires SameDictionary(a, b) && |a| == 0
    ensures b == []
  {
    assert forall s :: !Has(a, s);
    forall k | 0 <= k < |b| ensures Has(b, b[k].symbol) {
      assert b[k] in b;
    }
    assert |b| > 0 ==> !Has(b, b[0].symbol);
  }

  lemma SumsAfterRemove(a: seq<Entry>, b: seq<Entry>, s: Symbol)
    requires SameDictionary(a, b)
    ensures Sum(a) - Sum(Remove(a, s)) == Sum(b) - Sum(Remove(b, s))
  {
    hide Sum, Get, Remove, Has;
    RemoveSum(a, s);
    RemoveSum(b, s);
  }

  lemma RemovedAlike(a: seq<Entry>, b: seq<Entry>, gone: Symbol)
    requires SameDictionary(a, b)
    ensures SameDictionary(Remove(a, gone), Remove(b, gone))
  {
    hide Get, Remove, Has;
    RemoveSum(a, gone);
    RemoveSum(b, gone);
    forall x
      ensures Get(Remove(a, gone), x) == Get(Remove(b, gone), x)
      ensures Has(Remove(a, gone), x) <==> Has(Remove(b, gone), x)
    {
      GetAfterRemove(a, gone, x);
      GetAfterRemove(b, gone, x);
    }
  }

  lemma {:induction false} RemoveBound(a: seq<Entry>, symbol: Symbol)
    ensures |Remove(a, symbol)| <= |a|
  {
    if |a| > 0 {
      RemoveBound(a[1..], symbol);
    }
  }

  lemma RemoveShrinks(a: seq<Entry>, symbol: Symbol)
    requires |a| > 0 && a[0].symbol == symbol
    ensures |Remove(a, symbol)| < |a|
  {
    RemoveBound(a[1..], symbol);
  }

  lemma MarkedParts(panel: Panel, values: seq<Entry>, index: nat)
    requires |values| > 0
    ensures var marked := MarkValues(panel, values, index);
            && marked[1..] == MarkValues(panel, values[1..], index)
            && marked[0].amount == values[0].amount * Growth(panel, values[0].symbol, index)
  {
    var marked := MarkValues(panel, values, index);
    forall k | 0 <= k < |values| - 1 ensures marked[1..][k] == MarkValues(panel, values[1..], index)[k] {
      assert values[1..][k] == values[k + 1];
    }
  }

  lemma HasParts(a: seq<Entry>, s: Symbol)
    requires |a| > 0
    ensures Has(a, s) <==> a[0].symbol == s || Has(a[1..], s)
  {
    assert a == [a[0]] + a[1..];
  }

  lemma {:induction false} GetMarked(panel: Panel, values: seq<Entry>, index: nat, s: Symbol)
    ensures Get(MarkValues(panel, values, index), s) == Get(values, s) * Growth(panel, s, index)
    ensures Has(MarkValues(panel, values, index), s) <==> Has(values, s)
  {
    hide MarkValues, Growth;
    if |values| > 0 {
      MarkedParts(panel, values, index);
      HasParts(values, s);
      HasParts(MarkValues(panel, values, index), s);
      hide Has;
      GetMarked(panel, values[1..], index, s);
    }
  }

  lemma MarkedAlike(panel: Panel, a: seq<Entry>, b: seq<Entry>, index: nat)
    requires SameDictionary(a, b)
    ensures SameDictionary(MarkValues(panel, a, index), MarkValues(panel, b, index))
  {
    forall s
      ensures Get(MarkValues(panel, a, index), s) == Get(MarkValues(panel, b, index), s)
      ensures Has(MarkValues(panel, a, index), s) <==> Has(MarkValues(panel, b, index), s)
    {
      GetMarked(panel, a, index, s);
      GetMarked(panel, b, index, s);
    }
  }

  lemma EqualTargetsAreAlike(a: seq<Entry>, b: seq<Entry>, symbols: seq<Symbol>, amount: real)
    requires EqualTarget(a, symbols, amount) && EqualTarget(b, symbols, amount)
    ensures SameDictionary(a, b)
  {
    forall s ensures (Has(a, s) <==> Has(b, s)) && Get(a, s) == Get(b, s) {
      GetEqual(a, symbols, amount, s);
      GetEqual(b, symbols, amount, s);
    }
  }

  lemma GetEqual(a: seq<Entry>, symbols: seq<Symbol>, amount: real, s: Symbol)
    requires EqualTarget(a, symbols, amount)
    ensures Has(a, s) <==> s in symbols
    ensures Get(a, s) == if s in symbols then amount else 0.0
  {
    if Has(a, s) {
      var k :| 0 <= k < |a| && a[k].symbol == s;
      GetAt(a, k);
      assert a[k] in a;
    } else {
      GetAbsent(a, s);
    }
  }

  // The first fill

  /** Without a stop a day fills at most one order, its rebalance. */
  lemma CalmDay(env: Env, t: nat)
    requires WellFormed(env) && env.params.stopLoss.None? && t < |env.panel.dates|
    ensures var start := BeforeFills(env, t);
            Run(env, t + 1) == Record(
              if AddedDay(env, t) == [] then start
              else FillRebalance(env, t, start, Decide(env, t - env.params.lag).weights,
                                 Decide(env, t - env.params.lag).decision))
  {
    hide Run, BeforeFills, Decide, FillRebalance, Record, Mark;
    DayFillsDue(env, t);
    CalmDue(env, t);
    hide Due;
    if AddedDay(env, t) != [] {
      assert Due(env, t)[..0] == [];
    }
  }

  /** Without a stop loss the only order that can fall due is the rebalance. */
  lemma CalmDue(env: Env, t: nat)
    requires WellFormed(env) && env.params.stopLoss.None? && t < |env.panel.dates|
    ensures Due(env, t) == if AddedDay(env, t) == [] then [] else [Decide(env, t - env.params.lag)]
  {
    hide Run, Decide, Mark, WellFormed;
    if t >= env.params.lag {
      var i := t - env.params.lag;
      var st := Mark(env, i, Run(env, i));
      NoNewExits(env, i, st, st.values);
      hide NewExits;
      assert ExitOrders([], i + env.params.lag) == [];
      assert Issued(env, i) == if i in env.rebalance then [Decide(env, i)] else [];
    }
  }

  lemma MarkKeepsBooks(env: Env, index: nat, st: State)
    ensures var marked := Mark(env, index, st);
            && marked.investedFrom == st.investedFrom && marked.rebalances == st.rebalances
            && marked.cash == st.cash && marked.equityCurve == st.equityCurve
  {
  }

  lemma CalmCounts(env: Env, t: nat)
    requires WellFormed(env) && env.params.stopLoss.None? && t < |env.panel.dates|
    ensures var before, after := Run(env, t), Run(env, t + 1);
            && after.rebalances == before.rebalances + |AddedDay(env, t)|
            && after.investedFrom == (if before.investedFrom.Some? || AddedDay(env, t) == [] then before.investedFrom
                                      else Some(t))
  {
    hide Run, BeforeFills, Decide, Mark, ApplyTarget, EntryPrices, LogOf, CandidatesOf, WellFormed;
    CalmDay(env, t);
    BeforeFillsIsMarked(env, t);
    MarkKeepsBooks(env, t, Run(env, t));
  }

  lemma {:induction false} InvestedFromIsPast(env: Env, n: nat)
    requires WellFormed(env) && env.params.stopLoss.None? && n <= |env.panel.dates|
    ensures Run(env, n).investedFrom.Some? ==> Run(env, n).investedFrom.value < n
    ensures Run(env, n).investedFrom.None? <==> Run(env, n).rebalances == 0
  {
    hide Run;
    if n == 0 {
      RunStart(env);
    } else {
      InvestedFromIsPast(env, n - 1);
      CalmCounts(env, n - 1);
    }
  }

  /** The day the baseline buys: the run's own first fill. */
  function FirstFill(env: Env): Option<nat>
    requires WellFormed(env)
  {
    Run(env, |env.panel.dates|).investedFrom
  }

  lemma {:induction false} InvestedFromAt(env: Env, n: nat)
    requires WellFormed(env) && env.params.stopLoss.None? && n <= |env.panel.dates|
    ensures Run(env, n).investedFrom
         == if FirstFill(env).Some? && FirstFill(env).value < n then FirstFill(env) else None
    decreases |env.panel.dates| - n
  {
    hide Run;
    InvestedFromIsPast(env, n);
    if n < |env.panel.dates| {
      InvestedFromAt(env, n + 1);
      CalmCounts(env, n);
    }
  }

  // Day by day

  /** Same equity and reports so far; and before the first fill both are in cash, afterwards both hold the same
      dictionary over the whole universe and nothing else. */
  ghost predicate SameReports(st: State, h: Hold) {
    st.equity == h.equity && st.equityCurve == h.curve && st.dailyReturns == h.dailyReturns
  }

  ghost predicate SameBooks(symbols: seq<Symbol>, st: State, h: Hold) {
    if st.investedFrom.None? then st.values == [] && h.held == [] && st.cash == st.equity
    else && SameDictionary(st.values, h.held)
         && st.cash == 0.0
         && |h.held| == |symbols|
         && forall e :: e in h.held ==> e.symbol in symbols
  }

  lemma MarksMatch(env: Env, index: nat, st: State, h: Hold)
    requires |env.symbols| > 0 && SameReports(st, h) && SameBooks(env.symbols, st, h)
    ensures SameReports(Mark(env, index, st), HoldMark(env.panel, index, h))
    ensures SameBooks(env.symbols, Mark(env, index, st), HoldMark(env.panel, index, h))
  {
    if index > 0 && st.investedFrom.Some? {
      hide Sum, MarkValues, SameDictionary;
      var held := MarkValues(env.panel, h.held, index);
      MarkedAlike(env.panel, st.values, h.held, index);
      SameDictionarySameSum(MarkValues(env.panel, st.values, index), held);
      forall e | e in held ensures e.symbol in env.symbols {
        var k :| 0 <= k < |held| && held[k] == e;
        assert h.held[k] in h.held;
      }
    }
  }

  lemma {:induction false} AllPriced(panel: Panel, symbols: seq<Symbol>, index: nat)
    requires forall s :: s in symbols ==> Bar(panel, s, index).Some?
    ensures PricedAt(panel, symbols, index) == symbols
  {
    if |symbols| > 0 {
      assert symbols[|symbols| - 1] in symbols;
      assert forall s :: s in symbols[..|symbols| - 1] ==> s in symbols;
      AllPriced(panel, symbols[..|symbols| - 1], index);
      assert symbols == symbols[..|symbols| - 1] + [symbols[|symbols| - 1]];
    }
  }

  lemma SplitIsEqual(symbols: seq<Symbol>, equity: real)
    requires Sorting.Distinct(symbols) && |symbols| > 0
    ensures EqualTarget(EqualSplit(symbols, equity), symbols, equity / |symbols| as real)
  {
    var held := EqualSplit(symbols, equity);
    forall s | s in symbols ensures Has(held, s) {
      var k :| 0 <= k < |symbols| && symbols[k] == s;
      assert held[k] in held;
    }
  }

  lemma ScaledTarget(target: seq<Entry>, symbols: seq<Symbol>, equity: real)
    requires |symbols| > 0 && EqualTarget(target, symbols, 1.0 / |symbols| as real)
    ensures EqualTarget(Scale(target, equity), symbols, equity / |symbols| as real)
  {
    var n, scaled := |symbols| as real, Scale(target, equity);
    ShareTimes(n, equity);
    forall e | e in scaled ensures e.symbol in symbols && e.amount == equity / n {
      var k :| 0 <= k < |target| && scaled[k] == e;
      assert target[k] in target;
    }
    forall s | s in symbols ensures Has(scaled, s) {
      assert Has(target, s);
      var k :| 0 <= k < |target| && target[k].symbol == s;
      assert scaled[k] in scaled;
    }
  }

  lemma ShareTimes(n: real, equity: real)
    requires n > 0.0
    ensures (1.0 / n) * equity == equity / n && n * (1.0 / n) == 1.0
  {
    var r := 1.0 / n;
    assert r * n == 1.0;
    Reals.QuotientIs(equity, n, r * equity);
  }

  lemma EqualTargetIsFull(target: seq<Entry>, symbols: seq<Symbol>)
    requires |symbols| > 0 && EqualTarget(target, symbols, 1.0 / |symbols| as real)
    ensures Sum(target) == 1.0
  {
    SumOfEqual(target, 1.0 / |symbols| as real);
    hide Sum;
    ShareTimes(|symbols| as real, 1.0);
  }

  /** A free rebalance to equal weights keeps equity and leaves no cash. */
  lemma FreeFill(env: Env, t: nat, st: State, weights: seq<Entry>, decision: Decision)
    requires WholeUniverse(env) && t < |env.panel.dates| && Sound(env, st)
    requires LongOnly(weights) && EqualTarget(weights, env.symbols, 1.0 / |env.symbols| as real)
    ensures var after := FillRebalance(env, t, st, weights, decision);
            && after.equity == st.equity && after.cash == 0.0
            && after.values == Scale(weights, st.equity)
            && after.equityCurve == st.equityCurve && after.dailyReturns == st.dailyReturns
            && after.investedFrom == (if st.investedFrom.None? then Some(t) else st.investedFrom)
  {
    hide ApplyTarget, Sum, Scale, EntryPrices, LogOf, CandidatesOf, EqualTarget, LongOnly, WellFormed, Balanced;
    assert CostRate(env.params) == 0.0;
    FreeTrade(st.values, st.cash, st.equity, weights);
    EqualTargetIsFull(weights, env.symbols);
  }

  lemma FreeTrade(values: seq<Entry>, cash: real, equity: real, weights: seq<Entry>)
    requires Balanced(values, cash, equity) && LongOnly(weights)
    ensures var traded := ApplyTarget(values, cash, equity, weights, 0.0);
            && traded.equity == equity && traded.values == Scale(weights, equity)
            && traded.cash == equity - Sum(weights) * equity
  {
    ApplyTargetBalances(values, cash, equity, weights, 0.0);
    SumScale(weights, equity);
  }

  /** With one symbol, a full book is already on the target. */
  lemma SoloBook(values: seq<Entry>, held: seq<Entry>, weights: seq<Entry>, symbols: seq<Symbol>, equity: real)
    requires |symbols| == 1 && SameDictionary(values, held) && equity == Sum(values)
    requires |held| == 1 && held[0].symbol in symbols
    requires EqualTarget(weights, symbols, 1.0 / |symbols| as real)
    ensures Scale(weights, equity) == held
  {
    SameDictionarySameSum(values, held);
    assert held[..0] == [] && Sum([]) == 0.0;
    assert Sum(held) == held[0].amount;
    assert weights[0] in weights && 1.0 / 1.0 == 1.0;
    assert weights[0].amount == 1.0;
  }

  ghost predicate Matched(env: Env, n: nat)
    requires WellFormed(env) && n <= |env.panel.dates|
  {
    var h := HoldRun(env.panel, env.symbols, FirstFill(env), n);
    SameReports(Run(env, n), h) && SameBooks(env.symbols, Run(env, n), h)
  }

  lemma MatchedStart(env: Env, t: nat)
    requires WholeUniverse(env) && t < |env.panel.dates| && Matched(env, t)
    ensures var h := HoldMark(env.panel, t, HoldRun(env.panel, env.symbols, FirstFill(env), t));
            && SameReports(BeforeFills(env, t), h) && SameBooks(env.symbols, BeforeFills(env, t), h)
            && Sound(env, BeforeFills(env, t))
            && BeforeFills(env, t).investedFrom == Run(env, t).investedFrom
  {
    hide Run, BeforeFills, Sound, FirstFill, HoldRun, HoldMark, Mark, SameDictionary;
    var h := HoldRun(env.panel, env.symbols, FirstFill(env), t);
    EveryDayIsSound(env, t);
    FillsStartSound(env, t);
    BeforeFillsIsMarked(env, t);
    MarkKeepsBooks(env, t, Run(env, t));
    MarksMatch(env, t, Run(env, t), h);
  }

  /** A day without a fill, or with the first fill, keeps both books alike; a later fill keeps the reports alike,
      and with a single symbol the books as well. */
  lemma DayMatches(env: Env, t: nat)
    requires WholeUniverse(env) && t < |env.panel.dates| && Matched(env, t)
    ensures SameReports(Run(env, t + 1), HoldRun(env.panel, env.symbols, FirstFill(env), t + 1))
    ensures Run(env, t + 1).rebalances <= 1 || |env.symbols| == 1 ==> Matched(env, t + 1)
  {
    hide Run, BeforeFills, Sound, FirstFill, Decide, FillRebalance, HoldMark, HoldBuy, WholeUniverse;
    hide SameReports, SameBooks, Record, HoldRecord, EqualTarget, LongOnly;
    WholeUniverseIsCalm(env);
    var f := FirstFill(env);
    var h := HoldMark(env.panel, t, HoldRun(env.panel, env.symbols, f, t));
    var start := BeforeFills(env, t);
    MatchedStart(env, t);
    CalmDay(env, t);
    CalmCounts(env, t);
    InvestedFromIsPast(env, t);
    InvestedFromAt(env, t);
    InvestedFromAt(env, t + 1);
    hide WellFormed;
    var bought := HoldBuy(env.panel, env.symbols, t, f, h);
    if AddedDay(env, t) == [] {
      NoBuy(env.panel, env.symbols, t, f, h);
      RecordsMatch(env.symbols, start, bought);
    } else {
      var order := Decide(env, t - env.params.lag);
      DecisionIsEqual(env, t - env.params.lag);
      DecisionsAreSound(env, t - env.params.lag);
      FilledDayMatches(env, t, f, start, h, order.weights, order.decision);
      RecordsMatch(env.symbols, FillRebalance(env, t, start, order.weights, order.decision), bought);
    }
  }

  lemma NoBuy(panel: Panel, symbols: seq<Symbol>, t: nat, f: Option<nat>, h: Hold)
    requires f != Some(t)
    ensures HoldBuy(panel, symbols, t, f, h) == h
  {
  }

  lemma RecordsMatch(symbols: seq<Symbol>, st: State, h: Hold)
    requires SameReports(st, h)
    ensures SameReports(Record(st), HoldRecord(h))
    ensures SameBooks(symbols, st, h) ==> SameBooks(symbols, Record(st), HoldRecord(h))
  {
    hide Sum, SameDictionary;
  }

  lemma FilledDayMatches(env: Env, t: nat, f: Option<nat>, start: State, h: Hold, weights: seq<Entry>,
      decision: Decision)
    requires WholeUniverse(env) && t < |env.panel.dates| && Sound(env, start)
    requires SameReports(start, h) && SameBooks(env.symbols, start, h)
    requires LongOnly(weights) && EqualTarget(weights, env.symbols, 1.0 / |env.symbols| as real)
    requires start.investedFrom.None? <==> f == Some(t)
    ensures var after, bought := FillRebalance(env, t, start, weights, decision),
            HoldBuy(env.panel, env.symbols, t, f, h);
            && SameReports(after, bought)
            && (start.investedFrom.None? || |env.symbols| == 1 ==> SameBooks(env.symbols, after, bought))
  {
    hide FillRebalance, Scale, EqualSplit, EqualTarget, Sound, Sum, SameDictionary, LongOnly, WellFormed;
    FreeFill(env, t, start, weights, decision);
    if start.investedFrom.None? {
      AllPriced(env.panel, env.symbols, t);
      FirstBooks(env, weights, h.equity);
    } else if |env.symbols| == 1 {
      FullBook(env, start);
      SoloKeeps(start.values, h.held, weights, env.symbols, start.equity);
    }
  }

  lemma FullBook(env: Env, st: State)
    requires Sound(env, st) && st.cash == 0.0
    ensures st.equity == Sum(st.values)
  {
  }

  lemma FirstBooks(env: Env, weights: seq<Entry>, equity: real)
    requires Good(env) && |env.symbols| > 0
    requires EqualTarget(weights, env.symbols, 1.0 / |env.symbols| as real)
    ensures SameDictionary(Scale(weights, equity), EqualSplit(env.symbols, equity))
    ensures forall e :: e in EqualSplit(env.symbols, equity) ==> e.symbol in env.symbols
  {
    hide SameDictionary, Scale;
    ScaledTarget(weights, env.symbols, equity);
    SplitIsEqual(env.symbols, equity);
    EqualTargetsAreAlike(Scale(weights, equity), EqualSplit(env.symbols, equity), env.symbols,
                         equity / |env.symbols| as real);
  }

  lemma SoloKeeps(values: seq<Entry>, held: seq<Entry>, weights: seq<Entry>, symbols: seq<Symbol>, equity: real)
    requires |symbols| == 1 && SameDictionary(values, held) && equity == Sum(values)
    requires |held| == 1 && forall e :: e in held ==> e.symbol in symbols
    requires EqualTarget(weights, symbols, 1.0 / |symbols| as real)
    ensures SameDictionary(Scale(weights, equity), held)
  {
    assert held[0] in held;
    SoloBook(values, held, weights, symbols, equity);
  }

  lemma WholeUniverseIsCalm(env: Env)
    requires WholeUniverse(env)
    ensures WellFormed(env) && env.params.stopLoss.None? && Good(env)
  {
  }

  /** Through the day of the second fill the run and the baseline report the same curve and the same returns; with
      one symbol they do so for the whole run. */
  lemma {:induction false} RunIsItsBaseline(env: Env, n: nat)
    requires WholeUniverse(env) && n <= |env.panel.dates|
    requires n == 0 || Run(env, n - 1).rebalances <= 1 || |env.symbols| == 1
    ensures SameReports(Run(env, n), HoldRun(env.panel, env.symbols, FirstFill(env), n))
    ensures n == 0 || Run(env, n).rebalances <= 1 || |env.symbols| == 1 ==> Matched(env, n)
  {
    hide Run, WholeUniverse;
    WholeUniverseIsCalm(env);
    if n > 0 {
      CalmCounts(env, n - 1);
      if n > 1 {
        CalmCounts(env, n - 2);
      }
      RunIsItsBaseline(env, n - 1);
      DayMatches(env, n - 1);
    } else {
      MatchedInCash(env);
    }
  }

  lemma MatchedInCash(env: Env)
    requires WellFormed(env)
    ensures Matched(env, 0)
  {
    hide WellFormed, FirstFill;
  }

  /** A one-name strategy measured against its own universe has beta one, no alpha and no tracking error. */
  lemma SoloStrategyHasNoAlpha(env: Env, riskFreeRate: real)
    requires WholeUniverse(env) && |env.symbols| == 1 && |env.panel.dates| >= 3
    requires var own := Run(env, |env.panel.dates|).dailyReturns; |own| >= 2 && Covariance(own, own) > 0.0
    ensures var n := |env.panel.dates|;
            RelativeMetrics(Run(env, n).dailyReturns, HoldRun(env.panel, env.symbols, FirstFill(env), n).dailyReturns,
                            riskFreeRate) == Relative(0.0, 1.0, 0.0)
  {
    hide Run, WholeUniverse, RelativeMetrics, Covariance;
    WholeUniverseIsCalm(env);
    RunIsItsBaseline(env, |env.panel.dates|);
    SelfComparison(Run(env, |env.panel.dates|).dailyReturns, riskFreeRate);
  }
}
