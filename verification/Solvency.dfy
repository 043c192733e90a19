/** Conservation and solvency of the drifting book in every reachable state, and the factorisation of its curve. */
module Solvency {
  import opened Calendar
  import opened Claims
  import opened Drift
  import opened Ledger
  import opened Market
  import opened OrderQueue
  import opened Ranking
  import opened Selection
  import opened SelectionLaws
  import Reals

  ghost predicate Good(env: Env) {
    WellFormed(env) && PositivePrices(env.panel)
  }

  ghost predicate InUniverse(env: Env, entries: seq<Entry>) {
    forall e :: e in entries ==> e.symbol in env.symbols
  }

  /** equity = cash + holdings, no debt, only positive holdings of universe names, positive equity. */
  ghost predicate Sound(env: Env, st: State) {
    && Balanced(st.values, st.cash, st.equity)
    && InUniverse(env, st.values)
    && (forall s :: s in st.entryPrice ==> st.entryPrice[s] > 0.0 && Has(st.values, s))
    && (forall x :: x in st.invested ==> 0.0 <= x <= 1.0)
  }

  ghost predicate SoundOrder(env: Env, order: Order) {
    order.Rebalance? ==> LongOnly(order.weights) && InUniverse(env, order.weights)
  }

  // Marking

  lemma GrowthIsPositive(panel: Panel, symbol: Symbol, index: nat)
    requires PositivePrices(panel)
    ensures Growth(panel, symbol, index) > 0.0
  {
    var previous, current := Bar(panel, symbol, index - 1), Bar(panel, symbol, index);
    if previous.Some? && current.Some? {
      assert current.value > 0.0 && previous.value > 0.0;
    }
  }

  /** Marking moves a holding in proportion to its closes: its value times yesterday's close before is its value times
      today's after. */
  lemma MarkFollowsTheCloses(panel: Panel, values: seq<Entry>, index: nat, k: nat, before: real, now: real)
    requires k < |values| && before > 0.0
    requires ClosesAt(panel, values[k].symbol, index - 1, before) && ClosesAt(panel, values[k].symbol, index, now)
    ensures MarkValues(panel, values, index)[k].amount * before == values[k].amount * now
  {
    BarIsTheClose(panel, values[k].symbol, index - 1, before);
    BarIsTheClose(panel, values[k].symbol, index, now);
    hide Bar, ClosesAt;
    var amount, ratio := values[k].amount, now / before;
    assert ratio * before == now;
    assert (amount * ratio) * before == amount * (ratio * before);
  }

  /** A holding with a missing close, or one that is not positive the day before, keeps its value. */
  lemma UnpricedKeepsItsValue(panel: Panel, values: seq<Entry>, index: nat, yesterday: int, k: nat)
    requires k < |values| && yesterday == index - 1
    requires forall before, now ::
               ClosesAt(panel, values[k].symbol, yesterday, before) && ClosesAt(panel, values[k].symbol, index, now) ==>
                 before <= 0.0
    ensures MarkValues(panel, values, index)[k] == values[k]
  {
    var before, now := Bar(panel, values[k].symbol, index - 1), Bar(panel, values[k].symbol, index);
    if before.Some? && now.Some? {
      BarIsTheClose(panel, values[k].symbol, index - 1, before.value);
      BarIsTheClose(panel, values[k].symbol, index, now.value);
    }
    hide Bar;
    assert values[k].amount * 1.0 == values[k].amount;
  }

  lemma MarkedValuesStayPositive(panel: Panel, values: seq<Entry>, index: nat)
    requires PositivePrices(panel) && AllPositive(values) && DistinctSymbols(values)
    ensures AllPositive(MarkValues(panel, values, index)) && DistinctSymbols(MarkValues(panel, values, index))
    ensures forall s :: Has(MarkValues(panel, values, index), s) <==> Has(values, s)
  {
    var marked := MarkValues(panel, values, index);
    forall e | e in marked ensures e.amount > 0.0 {
      var k :| 0 <= k < |marked| && marked[k] == e;
      assert values[k] in values;
      GrowthIsPositive(panel, values[k].symbol, index);
    }
    forall s ensures Has(marked, s) <==> Has(values, s) {
      if Has(marked, s) {
        var k :| 0 <= k < |marked| && marked[k].symbol == s;
        assert values[k] in values;
      }
      if Has(values, s) {
        var k :| 0 <= k < |values| && values[k].symbol == s;
        assert marked[k] in marked;
      }
    }
  }

  lemma MarkIsSound(env: Env, index: nat, st: State)
    requires Good(env) && Sound(env, st)
    ensures Sound(env, Mark(env, index, st))
  {
    if index > 0 {
      var marked := MarkValues(env.panel, st.values, index);
      MarkedValuesStayPositive(env.panel, st.values, index);
      SumPositive(marked);
      forall e | e in marked ensures e.symbol in env.symbols {
        var k :| 0 <= k < |marked| && marked[k] == e;
        assert st.values[k] in st.values;
      }
      if |st.values| == 0 {
        assert Sum(st.values) == 0.0;
      }
    }
  }

  // Orders

  lemma DecisionsAreSound(env: Env, index: nat)
    requires WellFormed(env) && index < |env.panel.dates|
    ensures SoundOrder(env, Decide(env, index))
  {
    var scores := ClaimScores(ActiveGroups(env.signals, Ordinal(env.panel.dates[index])));
    var es := Eligibles(env.panel, env.symbols, index, env.params, scores);
    EligiblesComeFromSymbols(env.panel, env.symbols, index, env.params, scores);
    TargetIsLongOnly(es, env.params);
    hide Choose, ScoreOne, RankOf, LongOnly;
    var ps := Choose(es, env.params);
    forall e | e in TargetOf(ps) ensures e.symbol in env.symbols {
      var k :| 0 <= k < |ps| && TargetOf(ps)[k] == e;
      var x := ChosenFrom(es, env.params, k);
      ScoreKeepsSymbol(es, x, env.params);
    }
  }

  lemma ScoreKeepsSymbol(es: seq<Eligible>, e: Eligible, params: Params)
    ensures ScoreOne(es, e, params).symbol == e.symbol
  {
  }

  lemma IssuedAreSound(env: Env, t: nat)
    requires WellFormed(env) && t < |env.panel.dates|
    ensures forall o :: o in Issued(env, t) ==> SoundOrder(env, o)
  {
    hide Decide, NewExits, Mark, Run;
    DecisionsAreSound(env, t);
  }

  lemma DueAreSound(env: Env, t: nat)
    requires WellFormed(env) && t < |env.panel.dates|
    ensures forall o :: o in Due(env, t) ==> SoundOrder(env, o)
  {
    hide Issued, SoundOrder, AscendingDates, ValidParams;
    if t >= env.params.lag {
      IssuedAreSound(env, t - env.params.lag);
    }
  }

  // Charges

  function SumOf(xs: seq<real>): real {
    if |xs| == 0 then 0.0 else SumOf(xs[..|xs| - 1]) + xs[|xs| - 1]
  }

  /** What paying `costRate` on one turnover leaves of one unit of equity. */
  function Kept(costRate: real, turnover: real): real {
    1.0 - costRate * turnover
  }

  /** What is left of one unit of equity after paying `costRate` on each of these turnovers. */
  function Charged(costRate: real, turnovers: seq<real>): real {
    if |turnovers| == 0 then 1.0
    else Charged(costRate, turnovers[..|turnovers| - 1]) * Kept(costRate, turnovers[|turnovers| - 1])
  }

  /** One unit of equity compounded over these returns. */
  function Compounded(rs: seq<real>): real {
    if |rs| == 0 then 1.0 else Compounded(rs[..|rs| - 1]) * (1.0 + rs[|rs| - 1])
  }

  /** The turnover of an order, one number if it trades and none if there is nothing to sell. */
  function TurnoverOf(env: Env, st: State, order: Order): (turnovers: seq<real>)
    ensures |turnovers| <= 1
  {
    match order
    case StopExit(_, symbol) =>
      var held := Get(st.values, symbol);
      if held <= 0.0 || st.equity <= 0.0 then [] else [held / st.equity]
    case Rebalance(_, weights, _) => [ApplyTarget(st.values, st.cash, st.equity, weights,
      CostRate(env.params)).turnover]
  }

  function Turnovers(env: Env, index: nat, st: State, due: seq<Order>): seq<real>
    requires index < |env.panel.dates|
  {
    if |due| == 0 then []
    else Turnovers(env, index, st, due[..|due| - 1])
         + TurnoverOf(env, FillAll(env, index, st, due[..|due| - 1]), due[|due| - 1])
  }

  /** The turnover of every fill of the first `n` days, in order. */
  function RunTurnovers(env: Env, n: nat): seq<real>
    requires WellFormed(env) && n <= |env.panel.dates|
  {
    if n == 0 then []
    else RunTurnovers(env, n - 1) + Turnovers(env, n - 1, BeforeFills(env, n - 1), Due(env, n - 1))
  }

  ghost predicate Chargeable(xs: seq<real>) {
    forall x :: x in xs ==> 0.0 <= x <= 2.0
  }

  /** One step of the accounting: equity falls by the cost of the turnover and by nothing else. */
  ghost predicate ChargesExactly(env: Env, before: State, after: State, turnovers: seq<real>) {
    && Chargeable(turnovers)
    && after.equity == before.equity * Charged(CostRate(env.params), turnovers)
    && after.turnover == before.turnover + SumOf(turnovers)
  }

  lemma SingleCharge(costRate: real, turnover: real)
    ensures Charged(costRate, [turnover]) == 1.0 - costRate * turnover
    ensures SumOf([turnover]) == turnover
  {
    assert [turnover][..0] == [];
  }

  lemma {:induction false} ChargeConcat(costRate: real, a: seq<real>, b: seq<real>)
    ensures Charged(costRate, a + b) == Charged(costRate, a) * Charged(costRate, b)
    ensures SumOf(a + b) == SumOf(a) + SumOf(b)
  {
    if |b| == 0 {
      assert a + b == a;
    } else {
      assert (a + b)[..|a + b| - 1] == a + b[..|b| - 1];
      ChargeConcat(costRate, a, b[..|b| - 1]);
      var x, y, z := Charged(costRate, a), Charged(costRate, b[..|b| - 1]), Kept(costRate, b[|b| - 1]);
      assert (x * y) * z == x * (y * z);
    }
  }

  lemma CostRateBounds(params: Params)
    requires ValidParams(params)
    ensures 0.0 <= CostRate(params) <= 0.1
  {
  }

  lemma CostRateOf(env: Env)
    requires WellFormed(env)
    ensures 0.0 <= CostRate(env.params) <= 0.1
  {
    CostRateBounds(env.params);
  }

  /** The arithmetic of a sale: the equity left is what the turnover says. */
  lemma SaleCharge(held: real, equity: real, costRate: real)
    requires 0.0 < held <= equity && 0.0 <= costRate <= 0.1
    ensures 0.0 < held / equity <= 1.0
    ensures equity - costRate * held == equity * (1.0 - costRate * (held / equity))
    ensures equity - costRate * held > 0.0
    ensures held - costRate * held >= 0.0
  {
    var share := held / equity;
    assert share * equity == held;
    Reals.DivideMonotone(held, equity, equity);
    assert costRate * held <= 0.1 * held;
  }

  /** Selling one holding out of a sound book at a price of `cost`. */
  lemma SaleBalances(values: seq<Entry>, cash: real, equity: real, symbol: Symbol, costRate: real, cost: real)
    requires Balanced(values, cash, equity) && Get(values, symbol) > 0.0 && 0.0 <= costRate <= 0.1
    requires cost == costRate * Get(values, symbol)
    ensures Balanced(Remove(values, symbol), cash + (Get(values, symbol) - cost), equity - cost)
    ensures equity - cost == equity * (1.0 - costRate * (Get(values, symbol) / equity))
    ensures 0.0 < Get(values, symbol) / equity <= 1.0
  {
    hide Sum, Get, Remove;
    var rest := Remove(values, symbol);
    RemoveSum(values, symbol);
    assert AllPositive(rest);
    SumPositive(rest);
    SaleCharge(Get(values, symbol), equity, costRate);
    SaleArithmetic(Get(values, symbol), cost, cash, equity, Sum(rest));
  }

  lemma SaleArithmetic(held: real, cost: real, cash: real, equity: real, rest: real)
    requires equity == cash + (rest + held) && cash >= 0.0 && held - cost >= 0.0
    ensures equity - cost == (cash + (held - cost)) + rest && cash + (held - cost) >= 0.0
  {
  }

  lemma PositiveEquity(values: seq<Entry>, cash: real, equity: real)
    requires Balanced(values, cash, equity)
    ensures equity > 0.0
  {
  }

  lemma NoCharge(costRate: real, equity: real)
    ensures equity * Charged(costRate, []) == equity && SumOf([]) == 0.0
  {
  }

  lemma RemoveKeepsOthers(values: seq<Entry>, symbol: Symbol)
    ensures forall s :: s != symbol && Has(values, s) ==> Has(Remove(values, symbol), s)
  {
    hide Remove;
    forall s | s != symbol && Has(values, s) ensures Has(Remove(values, symbol), s) {
      var e :| e in values && e.symbol == s;
      assert e in Remove(values, symbol);
    }
  }

  lemma FillExitIsSound(env: Env, st: State, symbol: Symbol)
    requires Good(env) && Sound(env, st)
    ensures Sound(env, FillExit(env, st, symbol))
    ensures ChargesExactly(env, st, FillExit(env, st, symbol), TurnoverOf(env, st, StopExit(0, symbol)))
  {
    hide Sum, Get, Balanced, Charged, SumOf, CostRate, Remove;
    var held := Get(st.values, symbol);
    CostRateBounds(env.params);
    PositiveEquity(st.values, st.cash, st.equity);
    if held <= 0.0 {
      NoCharge(CostRate(env.params), st.equity);
    } else {
      var cost := CostRate(env.params) * held;
      SaleBalances(st.values, st.cash, st.equity, symbol, CostRate(env.params), cost);
      SingleCharge(CostRate(env.params), held / st.equity);
      RemoveKeepsOthers(st.values, symbol);
      var after := FillExit(env, st, symbol);
      assert after.cash == st.cash + (held - cost) && after.equity == st.equity - cost;
      assert InUniverse(env, after.values);
      assert forall s :: s in after.entryPrice ==> after.entryPrice[s] > 0.0 && Has(after.values, s);
    }
  }

  lemma ChargesOnce(env: Env, before: State, after: State, turnover: real)
    requires 0.0 <= turnover <= 2.0
    requires after.equity == before.equity * (1.0 - CostRate(env.params) * turnover)
    requires after.turnover == before.turnover + turnover
    ensures ChargesExactly(env, before, after, [turnover])
  {
    SingleCharge(CostRate(env.params), turnover);
    hide Charged, SumOf, CostRate;
  }

  /** A rebalance leaves a balanced book exactly on the target weights, charged exactly its turnover. */
  lemma RebalanceCharges(env: Env, index: nat, st: State, weights: seq<Entry>, decision: Decision)
    requires Good(env) && Balanced(st.values, st.cash, st.equity) && index < |env.panel.dates| && LongOnly(weights)
    ensures var after := FillRebalance(env, index, st, weights, decision);
            && Balanced(after.values, after.cash, after.equity)
            && after.values == Scale(weights, after.equity)
            && ChargesExactly(env, st, after, TurnoverOf(env, st, Rebalance(0, weights, decision)))
  {
    hide WellFormed, PositivePrices, ApplyTarget, Balanced, LongOnly, EntryPrices, CandidatesOf, LogOf, Scale;
    hide ChargesExactly;
    CostRateOf(env);
    hide CostRate;
    ApplyTargetBalances(st.values, st.cash, st.equity, weights, CostRate(env.params));
    var traded := ApplyTarget(st.values, st.cash, st.equity, weights, CostRate(env.params));
    ChargesOnce(env, st, FillRebalance(env, index, st, weights, decision), traded.turnover);
  }

  lemma FillRebalanceIsSound(env: Env, index: nat, st: State, weights: seq<Entry>, decision: Decision)
    requires Good(env) && Sound(env, st) && index < |env.panel.dates|
    requires LongOnly(weights) && InUniverse(env, weights)
    ensures var after := FillRebalance(env, index, st, weights, decision);
            && Sound(env, after)
            && after.values == Scale(weights, after.equity)
            && ChargesExactly(env, st, after, TurnoverOf(env, st, Rebalance(0, weights, decision)))
  {
    RebalanceCharges(env, index, st, weights, decision);
    hide ChargesExactly, TurnoverOf, Balanced, LongOnly, WellFormed, ApplyTarget, PositivePrices;
    var after := FillRebalance(env, index, st, weights, decision);
    ScaleStaysInUniverse(env, weights, after.equity);
    hide Scale, InUniverse;
  }

  lemma ScaleStaysInUniverse(env: Env, weights: seq<Entry>, factor: real)
    requires InUniverse(env, weights)
    ensures InUniverse(env, Scale(weights, factor))
  {
    forall e | e in Scale(weights, factor) ensures e.symbol in env.symbols {
      var k :| 0 <= k < |weights| && Scale(weights, factor)[k] == e;
      assert weights[k] in weights;
    }
  }

  lemma FillIsSound(env: Env, index: nat, st: State, order: Order)
    requires Good(env) && Sound(env, st) && index < |env.panel.dates| && SoundOrder(env, order)
    ensures Sound(env, Fill(env, index, st, order))
    ensures ChargesExactly(env, st, Fill(env, index, st, order), TurnoverOf(env, st, order))
  {
    hide Sound, ChargesExactly;
    match order
    case StopExit(_, symbol) => FillExitIsSound(env, st, symbol);
    case Rebalance(_, weights, decision) => FillRebalanceIsSound(env, index, st, weights, decision);
  }

  lemma ChargesCompose(env: Env, a: State, b: State, c: State, first: seq<real>, second: seq<real>)
    requires ChargesExactly(env, a, b, first) && ChargesExactly(env, b, c, second)
    ensures ChargesExactly(env, a, c, first + second)
  {
    var rate := CostRate(env.params);
    ChargeConcat(rate, first, second);
    var x, y, z := a.equity, Charged(rate, first), Charged(rate, second);
    assert (x * y) * z == x * (y * z);
  }

  lemma {:induction false} FillAllIsSound(env: Env, index: nat, st: State, due: seq<Order>)
    requires Good(env) && Sound(env, st) && index < |env.panel.dates|
    requires forall o :: o in due ==> SoundOrder(env, o)
    ensures Sound(env, FillAll(env, index, st, due))
    ensures ChargesExactly(env, st, FillAll(env, index, st, due), Turnovers(env, index, st, due))
  {
    hide Sound, TurnoverOf, Fill;
    if |due| == 0 {
      NoCharge(CostRate(env.params), st.equity);
    } else {
      hide ChargesExactly;
      var front, last := due[..|due| - 1], due[|due| - 1];
      assert last in due && forall o :: o in front ==> o in due;
      FillAllIsSound(env, index, st, front);
      var middle := FillAll(env, index, st, front);
      FillIsSound(env, index, middle, last);
      ChargesCompose(env, st, middle, FillAll(env, index, st, due), Turnovers(env, index, st, front),
                     TurnoverOf(env, middle, last));
    }
  }

  // Whole runs

  lemma InvestedShare(values: seq<Entry>, cash: real, equity: real)
    requires Balanced(values, cash, equity)
    ensures 0.0 <= Sum(values) / equity <= 1.0
  {
    SumPositive(values);
    Reals.DivideMonotone(0.0, Sum(values), equity);
    Reals.DivideMonotone(Sum(values), equity, equity);
  }

  lemma RecordIsSound(env: Env, st: State)
    requires Sound(env, st)
    ensures Sound(env, Record(st))
  {
    InvestedShare(st.values, st.cash, st.equity);
  }

  lemma BeforeFillsIsMarked(env: Env, t: nat)
    requires WellFormed(env) && t < |env.panel.dates|
    ensures var marked, st := Mark(env, t, Run(env, t)), BeforeFills(env, t);
            st == marked.(pending := st.pending, exitPending := st.exitPending)
  {
  }

  lemma SoundIgnoresQueue(env: Env, a: State, b: State)
    requires Sound(env, a) && b == a.(pending := b.pending, exitPending := b.exitPending)
    ensures Sound(env, b)
  {
  }

  /** In every reachable state the book is solvent and its money is conserved; so no fill ever meets the
      branch that would drop a worthless book. */
  lemma {:induction false} EveryDayIsSound(env: Env, n: nat)
    requires Good(env) && n <= |env.panel.dates|
    ensures Sound(env, Run(env, n))
  {
    hide Run, Sound;
    if n == 0 {
      StartIsSound(env);
    } else {
      EveryDayIsSound(env, n - 1);
      DayIsSound(env, n - 1);
    }
  }

  lemma StartIsSound(env: Env)
    requires Good(env)
    ensures Sound(env, Run(env, 0))
  {
  }

  lemma DayIsSound(env: Env, t: nat)
    requires Good(env) && t < |env.panel.dates| && Sound(env, Run(env, t))
    ensures Sound(env, Run(env, t + 1))
  {
    hide Run, FillAll, BeforeFills, Due, Sound, Record;
    FillsStartSound(env, t);
    DayFillsDue(env, t);
    DueAreSound(env, t);
    FillAllIsSound(env, t, BeforeFills(env, t), Due(env, t));
    RecordIsSound(env, FillAll(env, t, BeforeFills(env, t), Due(env, t)));
  }

  lemma SoundIsSolvent(env: Env, st: State)
    requires Sound(env, st)
    ensures st.equity > 0.0
  {
  }

  lemma FillsStartSound(env: Env, t: nat)
    requires Good(env) && t < |env.panel.dates| && Sound(env, Run(env, t))
    ensures Sound(env, BeforeFills(env, t))
  {
    hide Run, BeforeFills, Sound, Mark;
    MarkIsSound(env, t, Run(env, t));
    BeforeFillsIsMarked(env, t);
    SoundIgnoresQueue(env, Mark(env, t, Run(env, t)), BeforeFills(env, t));
  }

  /** The state reached part way through a day's fills is sound as well. */
  lemma EveryFillIsSound(env: Env, t: nat, k: nat)
    requires Good(env) && t < |env.panel.dates| && k <= |Due(env, t)|
    ensures Sound(env, FillAll(env, t, BeforeFills(env, t), Due(env, t)[..k]))
  {
    hide Run, FillAll, BeforeFills, Due, Sound;
    EveryDayIsSound(env, t);
    FillsStartSound(env, t);
    DueAreSound(env, t);
    FillAllIsSound(env, t, BeforeFills(env, t), Due(env, t)[..k]);
  }

  /** A day whose schedule fills a rebalance closes exactly on the decided weights. */
  lemma RebalanceIsLast(env: Env, i: nat)
    requires Good(env) && i in env.rebalance && i + env.params.lag < |env.panel.dates|
    ensures var st := Run(env, i + env.params.lag + 1);
            && st.values == Scale(Decide(env, i).weights, st.equity)
            && st.cash == st.equity - Sum(st.values)
            && st.candidates == CandidatesOf(Decide(env, i).decision)
  {
    hide Run, BeforeFills, Due, Decide, FillAll, Sound, SoundOrder, Sum, CandidatesOf;
    hide WellFormed, PositivePrices, FillRebalance, Record, Scale;
    var t := i + env.params.lag;
    var due, start := Due(env, t), BeforeFills(env, t);
    RebalanceIsIssuedLast(env, i);
    EveryFillIsSound(env, t, |due| - 1);
    DecisionsAreSound(env, i);
    DayFillsDue(env, t);
    LastFill(env, t, start, due);
    FillsOnTarget(env, t, FillAll(env, t, start, due[..|due| - 1]), Decide(env, i));
  }

  lemma FillsOnTarget(env: Env, t: nat, st: State, order: Order)
    requires Good(env) && Sound(env, st) && t < |env.panel.dates| && order.Rebalance? && SoundOrder(env, order)
    ensures var after := Record(FillRebalance(env, t, st, order.weights, order.decision));
            && after.values == Scale(order.weights, after.equity)
            && after.cash == after.equity - Sum(after.values)
            && after.candidates == CandidatesOf(order.decision)
  {
    FillRebalanceIsSound(env, t, st, order.weights, order.decision);
    hide Sum, TradedValue, CandidatesOf, Scale, Positive, ChargesExactly, TurnoverOf;
  }

  lemma RebalanceIsIssuedLast(env: Env, i: nat)
    requires WellFormed(env) && i in env.rebalance && i + env.params.lag < |env.panel.dates|
    ensures var due := Due(env, i + env.params.lag); |due| > 0 && due[|due| - 1] == Decide(env, i)
  {
    hide Mark, Run, NewExits, Decide;
  }

  lemma LastFill(env: Env, t: nat, st: State, due: seq<Order>)
    requires t < |env.panel.dates| && |due| > 0 && due[|due| - 1].Rebalance?
    ensures var order := due[|due| - 1];
            FillAll(env, t, st, due)
              == FillRebalance(env, t, FillAll(env, t, st, due[..|due| - 1]), order.weights, order.decision)
  {
    hide FillRebalance;
  }

  // The curve

  lemma CompoundedStep(rs: seq<real>, r: real)
    ensures Compounded(rs + [r]) == Compounded(rs) * (1.0 + r)
  {
    assert (rs + [r])[..|rs|] == rs;
  }

  lemma CompoundReturn(before: real, after: real, compounded: real, growth: real, r: real, all: real)
    requires before > 0.0 && before == compounded * growth
    requires r == after / before - 1.0 && all == compounded * (1.0 + r)
    ensures after == all * growth
  {
    var ratio := after / before;
    assert ratio * before == after;
    assert all == compounded * ratio;
    assert (compounded * ratio) * growth == ratio * (compounded * growth);
  }

  function ReturnOf(before: real, after: real): real
    requires before > 0.0
  {
    after / before - 1.0
  }

  /** Equity is the compounded returns times `growth`. */
  ghost predicate Compounds(rs: seq<real>, growth: real, equity: real) {
    equity == Compounded(rs) * growth
  }

  lemma CompoundedReturn(rs: seq<real>, before: real, after: real, growth: real)
    requires before > 0.0 && Compounds(rs, growth, before)
    ensures Compounds(rs + [ReturnOf(before, after)], growth, after)
  {
    hide Compounded;
    var r := ReturnOf(before, after);
    assert r == after / before - 1.0;
    hide ReturnOf;
    CompoundedStep(rs, r);
    CompoundReturn(before, after, Compounded(rs), growth, r, Compounded(rs + [r]));
  }

  lemma MarkCompounds(env: Env, index: nat, st: State, growth: real)
    requires st.equity > 0.0 && Compounds(st.dailyReturns, growth, st.equity)
    ensures var marked := Mark(env, index, st);
            && Compounds(marked.dailyReturns, growth, marked.equity)
            && |marked.dailyReturns| == |st.dailyReturns| + (if index == 0 then 0 else 1)
            && marked.turnover == st.turnover && marked.equityCurve == st.equityCurve
  {
    hide Sum, MarkValues, Compounds;
    if index > 0 {
      var marked := Mark(env, index, st);
      assert marked.dailyReturns == st.dailyReturns + [ReturnOf(st.equity, marked.equity)];
      hide ReturnOf, Mark;
      CompoundedReturn(st.dailyReturns, st.equity, marked.equity, growth);
    }
  }

  /** The accounting identity of a run state against the turnovers of its fills. */
  ghost predicate Factorised(env: Env, st: State, turnovers: seq<real>) {
    && st.equity == Compounded(st.dailyReturns) * Charged(CostRate(env.params), turnovers)
    && st.turnover == SumOf(turnovers)
    && Chargeable(turnovers)
  }

  /** After every day: equity is the compounded daily returns times what each fill left after its own cost, and
      total turnover is the sum of those same turnovers. */
  lemma {:induction false} EquityFactorises(env: Env, n: nat)
    requires Good(env) && n <= |env.panel.dates|
    ensures Factorised(env, Run(env, n), RunTurnovers(env, n))
    ensures |Run(env, n).equityCurve| == n
    ensures n > 0 ==> Run(env, n).equityCurve[n - 1] == Run(env, n).equity
    ensures |Run(env, n).dailyReturns| == (if n == 0 then 0 else n - 1)
  {
    hide Run, RunTurnovers, Factorised, WellFormed;
    if n == 0 {
      StartFactorises(env);
    } else {
      EquityFactorises(env, n - 1);
      FactoriseDay(env, n - 1);
    }
  }

  lemma StartFactorises(env: Env)
    requires Good(env)
    ensures Factorised(env, Run(env, 0), RunTurnovers(env, 0))
    ensures Run(env, 0).equityCurve == [] && Run(env, 0).dailyReturns == []
  {
    hide AscendingDates;
  }

  /** What the fills of a day do to the reports: they charge their turnovers and leave the rest alone. */
  lemma DayCharges(env: Env, t: nat)
    requires Good(env) && t < |env.panel.dates|
    ensures var start, due := BeforeFills(env, t), Due(env, t); var filled := FillAll(env, t, start, due);
            && Run(env, t + 1) == Record(filled)
            && ChargesExactly(env, start, filled, Turnovers(env, t, start, due))
            && filled.dailyReturns == start.dailyReturns == Run(env, t + 1).dailyReturns
            && Run(env, t + 1).equityCurve == start.equityCurve + [Run(env, t + 1).equity]
  {
    hide Run, BeforeFills, Due, FillAll, Turnovers, Sound, ChargesExactly, WellFormed, PositivePrices, Sum;
    EveryDayIsSound(env, t);
    FillsStartSound(env, t);
    DueAreSound(env, t);
    FillAllIsSound(env, t, BeforeFills(env, t), Due(env, t));
    FillAllKeepsPending(env, t, BeforeFills(env, t), Due(env, t));
    DayFillsDue(env, t);
  }

  lemma TurnoversGrow(env: Env, t: nat)
    requires WellFormed(env) && t < |env.panel.dates|
    ensures RunTurnovers(env, t + 1)
         == RunTurnovers(env, t) + Turnovers(env, t, BeforeFills(env, t), Due(env, t))
  {
    hide BeforeFills, Due, Turnovers, WellFormed;
  }

  lemma FactoriseDay(env: Env, t: nat)
    requires Good(env) && t < |env.panel.dates|
    requires Factorised(env, Run(env, t), RunTurnovers(env, t))
    ensures Factorised(env, Run(env, t + 1), RunTurnovers(env, t + 1))
    ensures Run(env, t + 1).equityCurve == Run(env, t).equityCurve + [Run(env, t + 1).equity]
    ensures |Run(env, t + 1).dailyReturns| == |Run(env, t).dailyReturns| + (if t == 0 then 0 else 1)
  {
    hide Run, BeforeFills, Due, FillAll, Turnovers, Sound, RunTurnovers, Factorised, ChargesExactly, WellFormed;
    hide PositivePrices, Record;
    TurnoversGrow(env, t);
    EveryDayIsSound(env, t);
    MarkFactorises(env, t);
    DayCharges(env, t);
    var start, due := BeforeFills(env, t), Due(env, t);
    FillsFactorise(env, start, FillAll(env, t, start, due), RunTurnovers(env, t), Turnovers(env, t, start, due));
  }

  lemma MarkFactorises(env: Env, t: nat)
    requires Good(env) && t < |env.panel.dates| && Sound(env, Run(env, t))
    requires Factorised(env, Run(env, t), RunTurnovers(env, t))
    ensures var st := BeforeFills(env, t);
            && Factorised(env, st, RunTurnovers(env, t))
            && st.equityCurve == Run(env, t).equityCurve
            && |st.dailyReturns| == |Run(env, t).dailyReturns| + (if t == 0 then 0 else 1)
  {
    hide Run, BeforeFills, RunTurnovers, Mark, Charged, SumOf, Compounded, Sum;
    BeforeFillsIsMarked(env, t);
    MarkCompounds(env, t, Run(env, t), Charged(CostRate(env.params), RunTurnovers(env, t)));
  }

  /** Fills leave the returns alone and multiply their own charge onto equity. */
  lemma FillsFactorise(env: Env, before: State, after: State, paid: seq<real>, added: seq<real>)
    requires Factorised(env, before, paid) && ChargesExactly(env, before, after, added)
    requires after.dailyReturns == before.dailyReturns
    ensures Factorised(env, Record(after), paid + added)
  {
    var rate := CostRate(env.params);
    ChargeConcat(rate, paid, added);
    hide Charged, SumOf, Compounded, CostRate, Sum;
    var c, x, y := Compounded(before.dailyReturns), Charged(rate, paid), Charged(rate, added);
    assert (c * x) * y == c * (x * y);
  }

  /** A day only adds to what was reported before it. */
  lemma DayOnlyAdds(env: Env, t: nat)
    requires WellFormed(env) && t < |env.panel.dates|
    ensures Run(env, t + 1).equityCurve == Run(env, t).equityCurve + [Run(env, t + 1).equity]
    ensures Run(env, t).dailyReturns <= Run(env, t + 1).dailyReturns
    ensures RunTurnovers(env, t) <= RunTurnovers(env, t + 1)
  {
    assert RunTurnovers(env, t + 1) == RunTurnovers(env, t) + Turnovers(env, t, BeforeFills(env, t), Due(env, t));
    hide Run, BeforeFills, Due, FillAll, RunTurnovers, Turnovers, WellFormed, MarkValues, Sum;
    BeforeFillsIsMarked(env, t);
    FillAllKeepsPending(env, t, BeforeFills(env, t), Due(env, t));
    DayFillsDue(env, t);
  }

  /** The whole curve of a run: its point on day `t` is the equity that day closed with, and factorises into the first
      t of the run's daily returns and the charges of the fills up to that day. */
  lemma {:induction false} CurveFactorises(env: Env, n: nat, t: nat)
    requires Good(env) && t < n <= |env.panel.dates|
    ensures var st := Run(env, n);
            && |st.equityCurve| == n && |st.dailyReturns| == n - 1
            && st.equityCurve[t] == Run(env, t + 1).equity
            && st.equityCurve[t]
                 == Compounded(st.dailyReturns[..t]) * Charged(CostRate(env.params), RunTurnovers(env, t + 1))
            && RunTurnovers(env, t + 1) <= RunTurnovers(env, n)
    decreases n
  {
    hide Run, RunTurnovers, WellFormed, Compounded, Charged, SumOf, Chargeable, CostRate;
    EquityFactorises(env, n);
    if t == n - 1 {
      assert Run(env, n).dailyReturns[..t] == Run(env, n).dailyReturns;
    } else {
      CurveFactorises(env, n - 1, t);
      DayOnlyAdds(env, n - 1);
      EquityFactorises(env, n - 1);
      assert Run(env, n).dailyReturns[..t] == Run(env, n - 1).dailyReturns[..t];
    }
  }

  /** The reported curve is positive on every day. */
  lemma {:induction false} CurveIsPositive(env: Env, n: nat)
    requires Good(env) && n <= |env.panel.dates|
    ensures forall v :: v in Run(env, n).equityCurve ==> v > 0.0
  {
    hide Run, Sound, Factorised, RunTurnovers, WellFormed;
    EquityFactorises(env, n);
    if n > 0 {
      CurveIsPositive(env, n - 1);
      EquityFactorises(env, n - 1);
      FactoriseDay(env, n - 1);
      EveryDayIsSound(env, n);
      SoundIsSolvent(env, Run(env, n));
    }
  }

  // The cost floor

  /** The product of what each charge keeps is at least what their sum would keep. */
  lemma {:induction false} WeierstrassProduct(costRate: real, turnovers: seq<real>)
    requires 0.0 <= costRate <= 0.1 && Chargeable(turnovers)
    ensures Kept(costRate, SumOf(turnovers)) <= Charged(costRate, turnovers) <= 1.0
    ensures Charged(costRate, turnovers) > 0.0
    ensures SumOf(turnovers) >= 0.0
  {
    hide Kept;
    if |turnovers| == 0 {
      NothingKept(costRate);
    } else {
      var front, last := turnovers[..|turnovers| - 1], turnovers[|turnovers| - 1];
      assert last in turnovers && forall x :: x in front ==> x in turnovers;
      WeierstrassProduct(costRate, front);
      WeierstrassStep(costRate, SumOf(front), Charged(costRate, front), last);
    }
  }

  lemma NothingKept(costRate: real)
    ensures Kept(costRate, 0.0) == 1.0
  {
  }

  lemma WeierstrassStep(costRate: real, sum: real, product: real, x: real)
    requires 0.0 <= costRate <= 0.1 && 0.0 <= x <= 2.0 && sum >= 0.0
    requires 0.0 < product <= 1.0 && Kept(costRate, sum) <= product
    ensures Kept(costRate, sum + x) <= product * Kept(costRate, x) <= 1.0
    ensures product * Kept(costRate, x) > 0.0
  {
    Reals.ProductBounds(costRate, 0.1, x, 2.0);
    assert Kept(costRate, sum + x) == Kept(costRate, sum) - costRate * x;
    ProductStep(product, costRate * x, Kept(costRate, x));
    hide Kept;
  }

  lemma ProductStep(product: real, c: real, kept: real)
    requires 0.0 < product <= 1.0 && 0.0 <= c <= 0.2 && kept == 1.0 - c
    ensures product - c <= product * kept <= 1.0
    ensures product * kept > 0.0
  {
    assert product * kept == product - product * c;
    assert (1.0 - product) * c == c - product * c;
    Reals.ProductSign(1.0 - product, c);
    Reals.ProductSign(product, c);
    Reals.ProductSign(product, kept - 0.8);
  }

  /** Costs take at most rate times total turnover off the compounded returns, and never add to them. */
  lemma CostFloor(env: Env, n: nat)
    requires Good(env) && n <= |env.panel.dates|
    ensures var st := Run(env, n);
            && Compounded(st.dailyReturns) * Kept(CostRate(env.params), st.turnover) <= st.equity
            && st.equity <= Compounded(st.dailyReturns)
            && Compounded(st.dailyReturns) > 0.0
  {
    hide Run, RunTurnovers, Charged, Compounded, SumOf, Kept;
    EquityFactorises(env, n);
    EveryDayIsSound(env, n);
    CostRateBounds(env.params);
    WeierstrassProduct(CostRate(env.params), RunTurnovers(env, n));
    Sandwich(Compounded(Run(env, n).dailyReturns), Charged(CostRate(env.params), RunTurnovers(env, n)),
             Kept(CostRate(env.params), Run(env, n).turnover), Run(env, n).equity);
  }

  lemma Sandwich(compounded: real, charged: real, floor: real, equity: real)
    requires equity == compounded * charged && equity > 0.0 && 0.0 < charged <= 1.0 && floor <= charged
    ensures compounded > 0.0 && compounded * floor <= equity <= compounded
  {
    Reals.StrictFactorSign(compounded, charged);
    assert compounded * (charged - floor) >= 0.0;
    assert compounded * (1.0 - charged) >= 0.0;
  }
}
