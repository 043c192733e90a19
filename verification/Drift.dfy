/** The simulation of a book that drifts with prices between fills: its state, one day's step, and the loop. */
module Drift {
  import opened Calendar
  import opened Claims
  import opened Ledger
  import opened Market
  import opened Options
  import opened Selection

  /** A rebalance decided on one close, with the research behind it. */
  datatype Decision = Decision(
    asOf: Date, positions: seq<Position>, activeClaims: map<Symbol, seq<Evidence>>, hadClaimSupport: bool)

  /** An instruction decided on one close and filled at the close of day `executeAt`. */
  datatype Order =
    | StopExit(executeAt: nat, symbol: Symbol)
    | Rebalance(executeAt: nat, weights: seq<Entry>, decision: Decision)

  datatype LogEntry = LogEntry(decidedAt: Date, date: Date, weights: seq<Entry>, claimSupport: seq<Entry>)

  datatype Candidate = Candidate(
    symbol: Symbol, rank: int, weight: real, score: real, momentum: real, momentumRank: real, claimSupport: real,
    evidence: seq<Evidence>)

  datatype CandidateSet = CandidateSet(asOf: Option<Date>, positions: seq<Candidate>)

  /** Everything a run reads. `rebalance` lists the scheduled decision days. */
  datatype Env = Env(panel: Panel, symbols: seq<Symbol>, rebalance: seq<nat>, params: Params, signals: seq<ClaimSignal>)

  ghost predicate WellFormed(env: Env) {
    && AscendingDates(env.panel.dates) && Rectangular(env.panel)
    && (forall s :: s in env.symbols ==> s in env.panel.series)
    && DistinctUniverse(env.symbols)
    && ValidParams(env.params)
  }

  /** The variables of the day loop; `equityCurve` is aligned with the panel's dates, `dailyReturns` starts a day
      later. */
  datatype State = State(
    equity: real, cash: real, values: seq<Entry>, entryPrice: map<Symbol, real>,
    pending: seq<Order>, exitPending: set<Symbol>,
    equityCurve: seq<real>, dailyReturns: seq<real>, log: seq<LogEntry>, invested: seq<real>,
    turnover: real, rebalances: nat, stopExits: nat, supportedRebalances: nat,
    investedFrom: Option<nat>, candidates: CandidateSet)

  const INITIAL := State(1.0, 1.0, [], map[], [], {}, [], [], [], [], 0.0, 0, 0, 0, None, CandidateSet(None, []))

  // 1. Marking to market

  /** Today's close over yesterday's, or one when either bar is missing. */
  function Growth(panel: Panel, symbol: Symbol, index: nat): real {
    var previous, current := Bar(panel, symbol, index - 1), Bar(panel, symbol, index);
    if previous.Some? && current.Some? && previous.value > 0.0 then current.value / previous.value else 1.0
  }

  function MarkValues(panel: Panel, values: seq<Entry>, index: nat): (marked: seq<Entry>)
    ensures |marked| == |values|
    ensures forall k :: 0 <= k < |values| ==> marked[k].symbol == values[k].symbol
  {
    seq(|values|, k requires 0 <= k < |values| =>
      values[k].(amount := values[k].amount * Growth(panel, values[k].symbol, index)))
  }

  function Mark(env: Env, index: nat, st: State): State {
    if index == 0 then st
    else
      var marked := MarkValues(env.panel, st.values, index);
      var equity := st.cash + Sum(marked);
      st.(values := marked, equity := equity,
          dailyReturns := st.dailyReturns + [if st.equity > 0.0 then equity / st.equity - 1.0 else 0.0])
  }

  // 2. Stop losses

  /** The close is at or below the stop, measured from the price paid. */
  predicate StopHit(env: Env, index: nat, entryPrice: map<Symbol, real>, symbol: Symbol) {
    var current := Bar(env.panel, symbol, index);
    && env.params.stopLoss.Some?
    && current.Some?
    && symbol in entryPrice
    && entryPrice[symbol] != 0.0
    && current.value / entryPrice[symbol] - 1.0 <= -env.params.stopLoss.value
  }

  /** The names that get an exit today, in book order: one exit per name stays in flight. */
  function NewExits(env: Env, index: nat, st: State, values: seq<Entry>): seq<Symbol> {
    if |values| == 0 then []
    else
      var before, symbol := NewExits(env, index, st, values[..|values| - 1]), values[|values| - 1].symbol;
      if symbol !in st.exitPending && symbol !in before && StopHit(env, index, st.entryPrice, symbol)
      then before + [symbol]
      else before
  }

  function ExitOrders(symbols: seq<Symbol>, executeAt: nat): (orders: seq<Order>)
    ensures |orders| == |symbols|
  {
    seq(|symbols|, k requires 0 <= k < |symbols| => StopExit(executeAt, symbols[k]))
  }

  function IssueStops(env: Env, index: nat, st: State): State {
    var exits := NewExits(env, index, st, st.values);
    st.(pending := st.pending + ExitOrders(exits, index + env.params.lag),
        exitPending := st.exitPending + set s | s in exits)
  }

  // 3. Scheduled decisions

  function Decide(env: Env, index: nat): (order: Order)
    requires WellFormed(env) && index < |env.panel.dates|
    ensures order.Rebalance? && order.executeAt == index + env.params.lag
    ensures order.decision.asOf == env.panel.dates[index]
    ensures order.weights == TargetOf(order.decision.positions)
  {
    var day := env.panel.dates[index];
    var active := ActiveGroups(env.signals, Ordinal(day));
    var scores := ClaimScores(active);
    var positions := Selected(env.panel, env.symbols, index, env.params, scores);
    Rebalance(index + env.params.lag, TargetOf(positions), Decision(day, positions, active, scores != map[]))
  }

  function IssueDecision(env: Env, index: nat, st: State): State
    requires WellFormed(env) && index < |env.panel.dates|
  {
    if index in env.rebalance then st.(pending := st.pending + [Decide(env, index)]) else st
  }

  // 4. Fills

  function EntryPrices(panel: Panel, values: seq<Entry>, index: nat): map<Symbol, real> {
    map e | e in values && Bar(panel, e.symbol, index).Some? :: e.symbol := Bar(panel, e.symbol, index).value
  }

  function EvidenceFor(active: map<Symbol, seq<Evidence>>, symbol: Symbol): seq<Evidence> {
    if symbol in active then active[symbol] else []
  }

  /** The ranked paper portfolio of a decision, each position with the claims live behind it. */
  function CandidatesOf(decision: Decision): (ranked: CandidateSet)
    ensures |ranked.positions| == |decision.positions|
  {
    var ps := decision.positions;
    CandidateSet(Some(decision.asOf), seq(|ps|, k requires 0 <= k < |ps| =>
      Candidate(ps[k].symbol, k + 1, ps[k].weight, ps[k].score, ps[k].momentum, ps[k].momentumRank,
                ps[k].claimSupport, EvidenceFor(decision.activeClaims, ps[k].symbol))))
  }

  function SupportsOf(positions: seq<Position>): (supports: seq<Entry>)
    ensures |supports| == |positions|
  {
    seq(|positions|, k requires 0 <= k < |positions| => Entry(positions[k].symbol, positions[k].claimSupport))
  }

  function LogOf(decision: Decision, date: Date): LogEntry {
    LogEntry(decision.asOf, date, TargetOf(decision.positions), SupportsOf(decision.positions))
  }

  function FillExit(env: Env, st: State, symbol: Symbol): State {
    var held := Get(st.values, symbol);
    var cleared := st.(exitPending := st.exitPending - {symbol});
    if held <= 0.0 || st.equity <= 0.0 then cleared
    else
      var cost := CostRate(env.params) * held;
      cleared.(turnover := st.turnover + held / st.equity, values := Remove(st.values, symbol),
               entryPrice := st.entryPrice - {symbol}, cash := st.cash + (held - cost),
               equity := st.equity - cost, stopExits := st.stopExits + 1)
  }

  function FillRebalance(env: Env, index: nat, st: State, weights: seq<Entry>, decision: Decision): State
    requires index < |env.panel.dates|
  {
    var traded := ApplyTarget(st.values, st.cash, st.equity, weights, CostRate(env.params));
    st.(equity := traded.equity, cash := traded.cash, values := traded.values,
        turnover := st.turnover + traded.turnover, rebalances := st.rebalances + 1,
        entryPrice := EntryPrices(env.panel, traded.values, index),
        supportedRebalances := st.supportedRebalances + (if decision.hadClaimSupport then 1 else 0),
        log := st.log + [LogOf(decision, env.panel.dates[index])],
        candidates := CandidatesOf(decision),
        investedFrom := if st.investedFrom.None? then Some(index) else st.investedFrom)
  }

  function Fill(env: Env, index: nat, st: State, order: Order): State
    requires index < |env.panel.dates|
  {
    match order
    case StopExit(_, symbol) => FillExit(env, st, symbol)
    case Rebalance(_, weights, decision) => FillRebalance(env, index, st, weights, decision)
  }

  function FillAll(env: Env, index: nat, st: State, due: seq<Order>): State
    requires index < |env.panel.dates|
  {
    if |due| == 0 then st else Fill(env, index, FillAll(env, index, st, due[..|due| - 1]), due[|due| - 1])
  }

  function DueBy(pending: seq<Order>, index: nat): seq<Order> {
    if |pending| == 0 then []
    else
      var before, last := DueBy(pending[..|pending| - 1], index), pending[|pending| - 1];
      if last.executeAt <= index then before + [last] else before
  }

  function DueAfter(pending: seq<Order>, index: nat): seq<Order> {
    if |pending| == 0 then []
    else
      var before, last := DueAfter(pending[..|pending| - 1], index), pending[|pending| - 1];
      if last.executeAt > index then before + [last] else before
  }

  function FillDue(env: Env, index: nat, st: State): State
    requires index < |env.panel.dates|
  {
    FillAll(env, index, st.(pending := DueAfter(st.pending, index)), DueBy(st.pending, index))
  }

  // 5. The record, and the whole day

  function Record(st: State): State {
    st.(invested := if st.investedFrom.None? then st.invested
                    else st.invested + [if st.equity > 0.0 then Sum(st.values) / st.equity else 0.0],
        equityCurve := st.equityCurve + [st.equity])
  }

  /** The state once today's orders are queued. */
  function Queued(env: Env, index: nat, st: State): State
    requires WellFormed(env) && index < |env.panel.dates|
  {
    IssueDecision(env, index, IssueStops(env, index, Mark(env, index, st)))
  }

  function Step(env: Env, index: nat, st: State): State
    requires WellFormed(env) && index < |env.panel.dates|
  {
    Record(FillDue(env, index, Queued(env, index, st)))
  }

  /** The state after the first `n` days. */
  function Run(env: Env, n: nat): State
    requires WellFormed(env) && n <= |env.panel.dates|
  {
    if n == 0 then INITIAL else Step(env, n - 1, Run(env, n - 1))
  }

  lemma RunStart(env: Env)
    requires WellFormed(env)
    ensures Run(env, 0) == INITIAL
  {
  }

  // The loop

  method MarkToMarket(panel: Panel, held: seq<Entry>, index: nat) returns (values: seq<Entry>)
    ensures values == MarkValues(panel, held, index)
  {
    values := held;
    for k := 0 to |held|
      invariant |values| == |held|
      invariant forall j :: 0 <= j < k ==> values[j] == MarkValues(panel, held, index)[j]
      invariant forall j :: k <= j < |held| ==> values[j] == held[j]
    {
      var previous, current := Bar(panel, values[k].symbol, index - 1), Bar(panel, values[k].symbol, index);
      if previous.Some? && current.Some? && previous.value > 0.0 {
        values := values[k := values[k].(amount := values[k].amount * (current.value / previous.value))];
      }
      assert held[k].amount * 1.0 == held[k].amount;
    }
  }

  method SendStops(env: Env, index: nat, st: State) returns (pending: seq<Order>, exitPending: set<Symbol>)
    ensures pending == IssueStops(env, index, st).pending
    ensures exitPending == IssueStops(env, index, st).exitPending
  {
    pending, exitPending := st.pending, st.exitPending;
    ghost var exits: seq<Symbol> := [];
    for k := 0 to |st.values|
      invariant exits == NewExits(env, index, st, st.values[..k])
      invariant pending == st.pending + ExitOrders(exits, index + env.params.lag)
      invariant exitPending == st.exitPending + set s | s in exits
    {
      var symbol := st.values[k].symbol;
      assert st.values[..k + 1][..k] == st.values[..k];
      if symbol in exitPending {
        continue;
      }
      if StopHit(env, index, st.entryPrice, symbol) {
        pending := pending + [StopExit(index + env.params.lag, symbol)];
        exitPending := exitPending + {symbol};
        assert ExitOrders(exits + [symbol], index + env.params.lag)
            == ExitOrders(exits, index + env.params.lag) + [StopExit(index + env.params.lag, symbol)];
        exits := exits + [symbol];
      }
    }
    assert st.values[..|st.values|] == st.values;
  }

  method TakeDecision(env: Env, index: nat) returns (order: Order)
    requires WellFormed(env) && index < |env.panel.dates|
    ensures order == Decide(env, index)
  {
    var day := env.panel.dates[index];
    var active := ActiveClaims(env.signals, Ordinal(day));
    var scores := ClaimScores(active);
    var positions := Select(env.panel, env.symbols, index, env.params, scores);
    order := Rebalance(index + env.params.lag, TargetOf(positions), Decision(day, positions, active, scores != map[]));
  }

  method SplitDue(pending: seq<Order>, index: nat) returns (due: seq<Order>, later: seq<Order>)
    ensures due == DueBy(pending, index) && later == DueAfter(pending, index)
  {
    due, later := [], [];
    for k := 0 to |pending|
      invariant due == DueBy(pending[..k], index) && later == DueAfter(pending[..k], index)
    {
      assert pending[..k + 1][..k] == pending[..k];
      if pending[k].executeAt <= index {
        due := due + [pending[k]];
      } else {
        later := later + [pending[k]];
      }
    }
    assert pending[..|pending|] == pending;
  }

  /** Fills the due orders one after the other: an exit sells one name, a rebalance replaces the book. */
  method FillOrders(env: Env, index: nat, before: State, due: seq<Order>) returns (st: State)
    requires index < |env.panel.dates|
    ensures st == FillAll(env, index, before, due)
  {
    hide Get, Remove, ApplyTarget, EntryPrices, CandidatesOf, LogOf, CostRate;
    st := before;
    for k := 0 to |due|
      invariant st == FillAll(env, index, before, due[..k])
    {
      assert due[..k + 1][..k] == due[..k];
      match due[k] {
        case StopExit(_, symbol) =>
          st := st.(exitPending := st.exitPending - {symbol});
          var held := Get(st.values, symbol);
          if held <= 0.0 || st.equity <= 0.0 {
            continue;
          }
          var cost := CostRate(env.params) * held;
          st := st.(turnover := st.turnover + held / st.equity);
          st := st.(values := Remove(st.values, symbol), entryPrice := st.entryPrice - {symbol});
          st := st.(cash := st.cash + (held - cost));
          st := st.(equity := st.equity - cost);
          st := st.(stopExits := st.stopExits + 1);
        case Rebalance(_, weights, decision) =>
          var traded := ApplyTarget(st.values, st.cash, st.equity, weights, CostRate(env.params));
          st := st.(equity := traded.equity, cash := traded.cash, values := traded.values);
          st := st.(turnover := st.turnover + traded.turnover);
          st := st.(rebalances := st.rebalances + 1);
          st := st.(entryPrice := EntryPrices(env.panel, st.values, index));
          if decision.hadClaimSupport {
            st := st.(supportedRebalances := st.supportedRebalances + 1);
          }
          st := st.(log := st.log + [LogOf(decision, env.panel.dates[index])]);
          st := st.(candidates := CandidatesOf(decision));
          if st.investedFrom.None? {
            st := st.(investedFrom := Some(index));
          }
      }
    }
    assert due[..|due|] == due;
  }

  /** The whole simulation: every variable ends as the day-by-day semantics says. */
  method SimulateDrift(env: Env) returns (st: State)
    requires WellFormed(env)
    ensures st == Run(env, |env.panel.dates|)
  {
    hide NewExits, ExitOrders, MarkValues, Decide, FillAll, DueBy, DueAfter, Sum, AscendingDates, ValidParams;
    st := INITIAL;
    for index := 0 to |env.panel.dates|
      invariant st == Run(env, index)
    {
      ghost var marked := Mark(env, index, st);
      if index > 0 {
        var previousEquity := st.equity;
        var values := MarkToMarket(env.panel, st.values, index);
        var equity := st.cash + Sum(values);
        st := st.(values := values, equity := equity,
                  dailyReturns := st.dailyReturns
                                  + [if previousEquity > 0.0 then equity / previousEquity - 1.0 else 0.0]);
      }
      assert st == marked;
      if env.params.stopLoss.Some? {
        var pending, exitPending := SendStops(env, index, st);
        st := st.(pending := pending, exitPending := exitPending);
      } else {
        NoStopsWithoutALimit(env, index, st);
      }
      assert st == IssueStops(env, index, marked);
      if index in env.rebalance {
        var order := TakeDecision(env, index);
        st := st.(pending := st.pending + [order]);
      }
      var due, later := SplitDue(st.pending, index);
      st := FillOrders(env, index, st.(pending := later), due);
      st := Record(st);
    }
  }

  lemma {:induction false} NoNewExits(env: Env, index: nat, st: State, values: seq<Entry>)
    requires env.params.stopLoss.None?
    ensures NewExits(env, index, st, values) == []
  {
    if |values| > 0 {
      NoNewExits(env, index, st, values[..|values| - 1]);
    }
  }

  lemma NoStopsWithoutALimit(env: Env, index: nat, st: State)
    requires env.params.stopLoss.None?
    ensures IssueStops(env, index, st) == st
  {
    NoNewExits(env, index, st, st.values);
  }
}
