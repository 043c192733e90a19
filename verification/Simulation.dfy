/** A whole backtest from its raw inputs: what it is refused for, what it hands the day loop, and what it cannot see. */
module Simulation {
  import opened Basket
  import opened Benchmark
  import opened Calendar
  import opened Claims
  import opened ConstantWeights
  import opened Drift
  import opened Ledger
  import opened Market
  import opened NoLookahead
  import opened Options
  import opened SignalIntake
  import Selection
  import SignalProjection
  import Sorting
  import Text

  /** Whether positions drift between fills, or the earlier accounting holds their weights constant. */
  datatype Tracking = Drifting | Constant

  /** `panel` has one column for each symbol of the snapshot; `topN` is unset when neither spec nor run sets it. */
  datatype Inputs = Inputs(
    panel: Panel, universe: seq<string>, schedule: string, params: Params, topN: Option<nat>, tracking: Tracking,
    defaultHorizon: int, minConfidence: real, riskFreeRate: real, benchmark: string, signals: seq<WireSignal>)

  datatype Refusal =
    | EmptyUniverse
    | EmptySymbol
    | BadSignal(reason: string)
    | NotCovered(missing: seq<Symbol>)
    | UnknownSchedule(schedule: string)

  datatype Authorized = Universe(symbols: seq<Symbol>) | BadUniverse(refusal: Refusal)

  datatype Prepared = Ready(env: Env) | NotReady(refusal: Refusal)

  datatype Simulator = DriftRun(state: State) | ConstantRun(frozen: FrozenState)

  /** A buy-and-hold baseline and the strategy's figures against it. */
  datatype Baseline = Baseline(curve: seq<real>, dailyReturns: seq<real>, drawdown: real, relative: Relative)

  datatype Outcome =
    | Finished(run: Simulator, drawdown: real, equalWeight: Baseline, benchmark: Option<Baseline>)
    | NotRun(refusal: Refusal)

  ghost predicate ValidInputs(inputs: Inputs) {
    && AscendingDates(inputs.panel.dates) && Rectangular(inputs.panel)
    && ValidParams(inputs.params.(topN := 1))
    && (inputs.topN.Some? ==> inputs.topN.value >= 1)
  }

  // The universe

  predicate SymbolLe(a: string, b: string) {
    a == b || Text.Less(a, b)
  }

  /** The trimmed names, each once. */
  function Names(raw: seq<string>): seq<Symbol> {
    if |raw| == 0 then []
    else
      var before, last := Names(raw[..|raw| - 1]), Text.Trim(raw[|raw| - 1]);
      if last in before then before else before + [last]
  }

  predicate HasBlank(raw: seq<string>) {
    exists item | item in raw :: Text.Trim(item) == ""
  }

  /** Some item of the list names the symbol. */
  ghost predicate Listed(raw: seq<string>, s: Symbol) {
    exists item :: item in raw && Text.Trim(item) == s
  }

  function AuthorizedSymbols(raw: seq<string>): Authorized {
    if raw == [] then BadUniverse(EmptyUniverse)
    else if HasBlank(raw) then BadUniverse(EmptySymbol)
    else Universe(Sorting.Sort(Names(raw), SymbolLe))
  }

  method UniverseSymbols(raw: seq<string>) returns (r: Authorized)
    ensures r == AuthorizedSymbols(raw)
  {
    if raw == [] {
      return BadUniverse(EmptyUniverse);
    }
    var symbols: seq<Symbol> := [];
    for k := 0 to |raw|
      invariant symbols == Names(raw[..k])
      invariant forall j :: 0 <= j < k ==> Text.Trim(raw[j]) != ""
    {
      assert raw[..k + 1][..k] == raw[..k];
      var symbol := Text.Trim(raw[k]);
      if symbol == "" {
        return BadUniverse(EmptySymbol);
      }
      if symbol !in symbols {
        symbols := symbols + [symbol];
      }
    }
    assert raw[..|raw|] == raw;
    r := Universe(Sorting.Sort(symbols, SymbolLe));
  }

  lemma {:induction false} NamesAreExact(raw: seq<string>)
    ensures forall s :: s in Names(raw) <==> Listed(raw, s)
    ensures Sorting.Distinct(Names(raw))
  {
    if |raw| > 0 {
      NamesAreExact(raw[..|raw| - 1]);
      assert forall item :: item in raw <==> item in raw[..|raw| - 1] || item == raw[|raw| - 1];
    }
  }

  /** The universe is the trimmed names in strictly ascending order, whatever order and repetition they came in. */
  lemma UniverseIsExact(raw: seq<string>)
    requires AuthorizedSymbols(raw).Universe?
    ensures var symbols := AuthorizedSymbols(raw).symbols;
            && (forall s :: s in symbols <==> Listed(raw, s))
            && Sorting.Ascending(symbols, Text.Less) && Sorting.Distinct(symbols)
            && "" !in symbols && symbols != []
  {
    NamesAreExact(raw);
    assert Listed(raw, Text.Trim(raw[0])) && !Listed(raw, "");
    hide Text.Less, Names, Listed;
    SortedNames(Names(raw));
  }

  lemma SortedNames(names: seq<string>)
    requires Sorting.Distinct(names)
    ensures var symbols := Sorting.Sort(names, SymbolLe);
            && (forall s :: s in symbols <==> s in names)
            && Sorting.Ascending(symbols, Text.Less) && Sorting.Distinct(symbols)
  {
    var symbols := Sorting.Sort(names, SymbolLe);
    Text.LessIsStrictTotalOrder();
    Sorting.SortKeepsElements(names, SymbolLe);
    Sorting.SortIsSorted(names, SymbolLe);
    Sorting.SameMembers(names, symbols);
    Sorting.DistinctKeysForgetOrder(names, symbols, (s: string) => s);
    hide Text.Less, Sorting.Sort;
    forall i, j | 0 <= i < j < |symbols| ensures Text.Less(symbols[i], symbols[j]) {
      assert SymbolLe(symbols[i], symbols[j]);
    }
  }

  /** Lists naming the same symbols authorize the same universe. */
  lemma UniverseForgetsOrder(a: seq<string>, b: seq<string>)
    requires AuthorizedSymbols(a).Universe? && AuthorizedSymbols(b).Universe?
    requires forall s :: Listed(a, s) <==> Listed(b, s)
    ensures AuthorizedSymbols(a) == AuthorizedSymbols(b)
  {
    UniverseIsExact(a);
    UniverseIsExact(b);
    Text.LessIsStrictTotalOrder();
    Sorting.AscendingIsUnique(AuthorizedSymbols(a).symbols, AuthorizedSymbols(b).symbols, Text.Less);
  }

  // Preparing a run

  /** The authorized symbols the snapshot has no column for, in order. */
  function Uncovered(symbols: seq<Symbol>, panel: Panel): (missing: seq<Symbol>)
    ensures forall s :: s in missing <==> s in symbols && s !in panel.series
  {
    if |symbols| == 0 then []
    else
      var before, last := Uncovered(symbols[..|symbols| - 1], panel), symbols[|symbols| - 1];
      if last in panel.series then before else before + [last]
  }

  /** The panel with only the authorized columns. */
  function Restricted(panel: Panel, symbols: seq<Symbol>): Panel
    requires Uncovered(symbols, panel) == []
  {
    Panel(panel.dates, map s | s in symbols && s in panel.series :: panel.series[s])
  }

  function TopN(topN: Option<nat>, available: nat): nat {
    if topN.Some? then topN.value else Selection.MinInt(3, available)
  }

  function Prepare(inputs: Inputs): Prepared
    requires ValidInputs(inputs)
  {
    match AuthorizedSymbols(inputs.universe)
    case BadUniverse(refusal) => NotReady(refusal)
    case Universe(symbols) =>
      match Normalize(inputs.signals, inputs.defaultHorizon, inputs.minConfidence, set s | s in symbols)
      case Rejected(reason) => NotReady(BadSignal(reason))
      case Signals(signals) =>
        if Uncovered(symbols, inputs.panel) != [] then NotReady(NotCovered(Uncovered(symbols, inputs.panel)))
        else
          match RebalanceSchedule(inputs.panel.dates, inputs.schedule, inputs.params.lookbackDays)
          case UnsupportedSchedule(schedule) => NotReady(UnknownSchedule(schedule))
          case Picked(indices) =>
            Ready(Env(Restricted(inputs.panel, symbols), symbols, indices,
                      inputs.params.(topN := TopN(inputs.topN, |symbols|)), signals))
  }

  /** What a run schedules when it is ready. */
  ghost predicate ScheduledExactly(inputs: Inputs, rebalance: seq<nat>)
    requires ValidInputs(inputs)
  {
    && Increasing(rebalance)
    && (!KnownSchedule(inputs.schedule) ==> rebalance == [])
    && (KnownSchedule(inputs.schedule) ==>
          forall i :: i in rebalance <==>
            FirstOfPeriod(PeriodKeys(inputs.panel.dates, inputs.schedule), inputs.params.lookbackDays, i))
  }

  lemma ScheduleIsExact(inputs: Inputs)
    requires ValidInputs(inputs) && Prepare(inputs).Ready?
    ensures ScheduledExactly(inputs, Prepare(inputs).env.rebalance)
    ensures Prepare(inputs).env.rebalance ==
              if KnownSchedule(inputs.schedule)
              then PeriodStarts(PeriodKeys(inputs.panel.dates, inputs.schedule), inputs.params.lookbackDays,
                |inputs.panel.dates|)
              else []
  {
    hide Normalize, PeriodKeys, AuthorizedSymbols, Restricted, Uncovered, FirstOfPeriod, AscendingKeys;
    if KnownSchedule(inputs.schedule) {
      PeriodsAscend(inputs.panel.dates, inputs.schedule);
      PeriodStartsAreExact(PeriodKeys(inputs.panel.dates, inputs.schedule), inputs.params.lookbackDays,
        |inputs.panel.dates|);
      FirstOfPeriodIsInRange(PeriodKeys(inputs.panel.dates, inputs.schedule), inputs.params.lookbackDays);
    }
  }

  /**
   * The calendar meaning of a schedule: a bar is scheduled if and only if the lookback is full and no earlier bar from
   * then on lies in the same month, quarter or ISO week.
   */
  lemma ScheduleReadsTheCalendar(inputs: Inputs, i: nat)
    requires ValidInputs(inputs) && Prepare(inputs).Ready? && i < |inputs.panel.dates|
    requires inputs.schedule in {"weekly", "monthly", "quarterly"}
    ensures var dates := inputs.panel.dates;
            i in Prepare(inputs).env.rebalance <==>
              && inputs.params.lookbackDays <= i
              && forall j :: inputs.params.lookbackDays <= j < i ==> !SamePeriod(inputs.schedule, dates[j], dates[i])
  {
    ScheduleIsExact(inputs);
    hide Prepare, PeriodKey, SamePeriod;
    var dates := inputs.panel.dates;
    forall j | 0 <= j < |dates|
      ensures PeriodKeys(dates, inputs.schedule)[j] == PeriodKeys(dates, inputs.schedule)[i]
              <==> SamePeriod(inputs.schedule, dates[j], dates[i])
    {
      KeysAreCalendarPeriods(inputs.schedule, dates[j], dates[i]);
    }
  }

  /** What a run takes over from the spec unchanged, and how many names it holds when nothing says so. */
  lemma PreparedKeepsTheSpec(inputs: Inputs)
    requires ValidInputs(inputs) && Prepare(inputs).Ready?
    ensures var env := Prepare(inputs).env;
            && env.params == inputs.params.(topN := env.params.topN)
            && (inputs.topN.Some? ==> env.params.topN == inputs.topN.value)
            && (inputs.topN.None? ==> env.params.topN == if |env.symbols| < 3 then |env.symbols| else 3)
            && (forall s :: s in env.panel.series <==> s in env.symbols)
            && (forall s :: s in env.symbols ==>
                  s in inputs.panel.series && env.panel.series[s] == inputs.panel.series[s])
  {
    CoveredWhenReady(inputs);
    RestrictedColumns(inputs.panel, AuthorizedSymbols(inputs.universe).symbols);
    hide Normalize, RebalanceSchedule, AscendingDates, AuthorizedSymbols, Restricted, Uncovered;
  }

  lemma FirstOfPeriodIsInRange(keys: seq<Key>, minIndex: nat)
    ensures forall i :: FirstOfPeriod(keys, minIndex, i) ==> minIndex <= i < |keys|
  {
  }

  /**
   * An unknown schedule is refused exactly when there is a bar after the lookback to look at. `known` is any schedule
   * under which nothing else about the request is refused.
   */
  lemma UnknownScheduleIsNoticedLate(inputs: Inputs, known: string)
    requires ValidInputs(inputs) && !KnownSchedule(inputs.schedule)
    requires ValidInputs(inputs.(schedule := known)) && KnownSchedule(known)
    requires Prepare(inputs.(schedule := known)).Ready?
    ensures Prepare(inputs).NotReady? <==> inputs.params.lookbackDays < |inputs.panel.dates|
    ensures Prepare(inputs).NotReady? ==> Prepare(inputs).refusal == UnknownSchedule(inputs.schedule)
    ensures Prepare(inputs).Ready? ==> Prepare(inputs).env.rebalance == []
  {
    hide Normalize, AuthorizedSymbols, AscendingDates, Restricted, Uncovered, PeriodKeys;
  }

  /** Everything about a run that has not traded and has nothing queued. */
  ghost predicate Untouched(st: State) {
    && st.values == [] && st.cash == 1.0 && st.equity == 1.0 && st.entryPrice == map[]
    && st.pending == [] && st.turnover == 0.0 && st.rebalances == 0 && st.stopExits == 0
    && st.log == [] && st.candidates == INITIAL.candidates && st.investedFrom.None?
    && forall v :: v in st.equityCurve ==> v == 1.0
  }

  ghost predicate FrozenUntouched(st: FrozenState) {
    && st.weights == [] && st.equity == 1.0 && st.entryPrice == map[]
    && st.turnover == 0.0 && st.rebalances == 0 && st.stopExits == 0
    && st.log == [] && st.candidates == INITIAL.candidates && st.investedFrom.None?
    && forall v :: v in st.equityCurve ==> v == 1.0
  }

  /** A run without a scheduled day never trades, under either accounting: on every day it is all cash, worth one, with
      nothing logged. */
  lemma {:induction false} UnscheduledRunNeverTrades(env: Env, n: nat)
    requires WellFormed(env) && env.rebalance == [] && n <= |env.panel.dates|
    ensures Untouched(Run(env, n)) && FrozenUntouched(FrozenRun(env, n))
  {
    hide Run, FrozenRun, WellFormed, Untouched, FrozenUntouched, Step, FrozenStep;
    if n == 0 {
      NothingTouchedYet(env);
    } else {
      UnscheduledRunNeverTrades(env, n - 1);
      IdleDay(env, n - 1, Run(env, n - 1));
      RunStep(env, n - 1);
      FrozenIdleDay(env, n - 1, FrozenRun(env, n - 1));
      FrozenRunStep(env, n - 1);
    }
  }

  lemma NothingTouchedYet(env: Env)
    requires WellFormed(env)
    ensures Untouched(Run(env, 0)) && FrozenUntouched(FrozenRun(env, 0))
  {
    hide WellFormed;
    RunStart(env);
    FrozenStart(env);
    hide Run, FrozenRun;
  }

  lemma FrozenIdleDay(env: Env, t: nat, st: FrozenState)
    requires WellFormed(env) && env.rebalance == [] && t < |env.panel.dates| && FrozenUntouched(st)
    ensures FrozenUntouched(FrozenStep(env, t, st))
  {
    hide AscendingDates, ValidParams, Decide, FrozenStopHit, FrozenFill;
    assert Zeroed(env, t, st.entryPrice, st.weights) == [];
  }

  lemma RunStep(env: Env, t: nat)
    requires WellFormed(env) && t < |env.panel.dates|
    ensures Run(env, t + 1) == Step(env, t, Run(env, t))
  {
    hide Step, WellFormed;
  }

  lemma IdleDay(env: Env, t: nat, st: State)
    requires WellFormed(env) && env.rebalance == [] && t < |env.panel.dates| && Untouched(st)
    ensures Untouched(Step(env, t, st))
  {
    hide AscendingDates, ValidParams, Decide, StopHit;
    assert MarkValues(env.panel, st.values, t) == [];
    assert Queued(env, t, st).pending == [];
  }

  /** A run that is not refused starts from a well-formed environment over exactly the authorized universe. */
  lemma PreparedIsWellFormed(inputs: Inputs)
    requires ValidInputs(inputs) && Prepare(inputs).Ready?
    ensures var env := Prepare(inputs).env;
            && WellFormed(env)
            && env.panel.dates == inputs.panel.dates
            && "" !in env.symbols
            && (forall s :: s in env.symbols <==> Listed(inputs.universe, s))
            && (forall s :: s in env.symbols ==> s in inputs.panel.series)
            && Sorting.Sorted(env.signals, SignalLe)
            && ScheduledExactly(inputs, env.rebalance)
  {
    hide Normalize, ScheduledExactly, AscendingDates, RebalanceSchedule;
    UniverseIsExact(inputs.universe);
    ScheduleIsExact(inputs);
    NormalizedIsSorted(inputs.signals, inputs.defaultHorizon, inputs.minConfidence,
      set s | s in Prepare(inputs).env.symbols);
  }

  lemma NormalizedIsSorted(raw: seq<WireSignal>, defaultHorizon: int, minConfidence: real, universe: set<Symbol>)
    requires Normalize(raw, defaultHorizon, minConfidence, universe).Signals?
    ensures Sorting.Sorted(Normalize(raw, defaultHorizon, minConfidence, universe).signals, SignalLe)
  {
    KeyLeIsATotalOrder();
    Sorting.SortIsSorted(Collect(raw, defaultHorizon, minConfidence, universe).signals, SignalLe);
  }

  function CurveOf(run: Simulator): seq<real> {
    match run
    case DriftRun(state) => state.equityCurve
    case ConstantRun(frozen) => frozen.equityCurve
  }

  function ReturnsOf(run: Simulator): seq<real> {
    match run
    case DriftRun(state) => state.dailyReturns
    case ConstantRun(frozen) => frozen.dailyReturns
  }

  function FirstFillOf(run: Simulator): Option<nat> {
    match run
    case DriftRun(state) => state.investedFrom
    case ConstantRun(frozen) => frozen.investedFrom
  }

  function SimulatorRun(env: Env, tracking: Tracking): Simulator
    requires WellFormed(env)
  {
    match tracking
    case Drifting => DriftRun(Run(env, |env.panel.dates|))
    case Constant => ConstantRun(FrozenRun(env, |env.panel.dates|))
  }

  /** The strategy against buying these columns at its own first fill. */
  function Measured(panel: Panel, symbols: seq<Symbol>, run: Simulator, riskFreeRate: real): Baseline {
    var h := HoldRun(panel, symbols, FirstFillOf(run), |panel.dates|);
    Baseline(h.curve, h.dailyReturns, Scanned(h.curve).drawdown,
             RelativeMetrics(ReturnsOf(run), h.dailyReturns, riskFreeRate))
  }

  /** The benchmark symbol is measured when the snapshot has a column for it, in the universe or not. */
  function Reported(inputs: Inputs, env: Env, run: Simulator): Outcome {
    Finished(run, Scanned(CurveOf(run)).drawdown, Measured(env.panel, env.symbols, run, inputs.riskFreeRate),
             if inputs.benchmark != "" && inputs.benchmark in inputs.panel.series
             then Some(Measured(inputs.panel, [inputs.benchmark], run, inputs.riskFreeRate)) else None)
  }

  function Simulated(inputs: Inputs): Outcome
    requires ValidInputs(inputs)
  {
    match Prepare(inputs)
    case NotReady(refusal) => NotRun(refusal)
    case Ready(env) =>
      PreparedIsWellFormed(inputs);
      Reported(inputs, env, SimulatorRun(env, inputs.tracking))
  }

  ghost predicate WorstFallIfPositive(curve: seq<real>, drawdown: real) {
    AllAboveZero(curve) ==> IsWorstFall(curve, drawdown)
  }

  /** Every reported drawdown is the worst fall of its own curve. */
  ghost predicate DrawdownsAreWorstFalls(outcome: Outcome) {
    outcome.Finished? ==>
      && (outcome.run.DriftRun? ==> WorstFallIfPositive(outcome.run.state.equityCurve, outcome.drawdown))
      && (outcome.run.ConstantRun? ==> WorstFallIfPositive(outcome.run.frozen.equityCurve, outcome.drawdown))
      && WorstFallIfPositive(outcome.equalWeight.curve, outcome.equalWeight.drawdown)
      && (outcome.benchmark.Some? ==>
           WorstFallIfPositive(outcome.benchmark.value.curve, outcome.benchmark.value.drawdown))
  }

  /** A baseline over these columns, bought at `firstFill`, and a strategy's returns measured against it. */
  ghost predicate IsBaseline(
      baseline: Baseline, panel: Panel, symbols: seq<Symbol>, firstFill: Option<nat>, daily: seq<real>, rate: real)
  {
    && |baseline.curve| == |panel.dates|
    && (forall i :: 0 <= i < |panel.dates| ==> baseline.curve[i] == BaselineValue(panel, symbols, firstFill, i))
    && baseline.relative == RelativeMetrics(daily, baseline.dailyReturns, rate)
  }

  /** Both baselines are bought when this strategy first fills. */
  ghost predicate BaselinesStartTogether(
      inputs: Inputs, env: Env, outcome: Outcome, firstFill: Option<nat>, daily: seq<real>)
    requires outcome.Finished?
  {
    && IsBaseline(outcome.equalWeight, env.panel, env.symbols, firstFill, daily, inputs.riskFreeRate)
    && (outcome.benchmark.Some? <==> inputs.benchmark != "" && inputs.benchmark in inputs.panel.series)
    && (outcome.benchmark.Some? ==>
         IsBaseline(outcome.benchmark.value, inputs.panel, [inputs.benchmark], firstFill, daily, inputs.riskFreeRate))
  }

  lemma MeasuredIsABaseline(panel: Panel, symbols: seq<Symbol>, run: Simulator, riskFreeRate: real)
    ensures IsBaseline(Measured(panel, symbols, run, riskFreeRate), panel, symbols, FirstFillOf(run), ReturnsOf(run),
              riskFreeRate)
  {
    BaselineIsTheBasket(panel, symbols, FirstFillOf(run), |panel.dates|);
    hide BaselineValue, BaselineHeld, RelativeMetrics, Scanned;
  }

  /** The run is that of the chosen accounting, and is measured against baselines bought at its own first fill. */
  lemma WhatIsReported(inputs: Inputs)
    requires ValidInputs(inputs) && Simulated(inputs).Finished?
    ensures Prepare(inputs).Ready? && WellFormed(Prepare(inputs).env)
    ensures var (env, outcome) := (Prepare(inputs).env, Simulated(inputs));
            match inputs.tracking
            case Drifting =>
              var st := Run(env, |env.panel.dates|);
              && outcome.run == DriftRun(st)
              && BaselinesStartTogether(inputs, env, outcome, st.investedFrom, st.dailyReturns)
            case Constant =>
              var st := FrozenRun(env, |env.panel.dates|);
              && outcome.run == ConstantRun(st)
              && BaselinesStartTogether(inputs, env, outcome, st.investedFrom, st.dailyReturns)
  {
    PreparedIsWellFormed(inputs);
    hide Prepare, Run, FrozenRun, WellFormed, IsBaseline, Measured;
    var env := Prepare(inputs).env;
    var run := SimulatorRun(env, inputs.tracking);
    MeasuredIsABaseline(env.panel, env.symbols, run, inputs.riskFreeRate);
    MeasuredIsABaseline(inputs.panel, [inputs.benchmark], run, inputs.riskFreeRate);
  }

  /** What is missing is listed in the universe's order, each name once. */
  lemma {:induction false} UncoveredIsAscending(symbols: seq<Symbol>, panel: Panel)
    requires Sorting.Ascending(symbols, Text.Less)
    ensures Sorting.Ascending(Uncovered(symbols, panel), Text.Less)
  {
    if |symbols| > 0 {
      var front, last := symbols[..|symbols| - 1], symbols[|symbols| - 1];
      UncoveredIsAscending(front, panel);
      hide Text.Less;
      forall k | 0 <= k < |Uncovered(front, panel)| ensures Text.Less(Uncovered(front, panel)[k], last) {
        assert Uncovered(front, panel)[k] in Uncovered(front, panel);
      }
    }
  }

  lemma RefusedUnlessReady(inputs: Inputs)
    requires ValidInputs(inputs)
    ensures Prepare(inputs).NotReady? ==> Simulated(inputs) == NotRun(Prepare(inputs).refusal)
    ensures Prepare(inputs).Ready? ==> Simulated(inputs).Finished?
  {
    hide Prepare;
  }

  lemma BadUniverses(raw: seq<string>)
    ensures raw == [] <==> AuthorizedSymbols(raw) == BadUniverse(EmptyUniverse)
    ensures raw != [] && Listed(raw, "") <==> AuthorizedSymbols(raw) == BadUniverse(EmptySymbol)
    ensures raw != [] && !Listed(raw, "") <==> AuthorizedSymbols(raw).Universe?
  {
    hide Text.Trim;
  }

  /** Which refusal a request meets: its universe is checked first, then signals, then coverage, then the schedule. */
  lemma RefusalsComeInOrder(inputs: Inputs)
    requires ValidInputs(inputs)
    ensures inputs.universe == [] <==> Simulated(inputs) == NotRun(EmptyUniverse)
    ensures inputs.universe != [] && Listed(inputs.universe, "") <==> Simulated(inputs) == NotRun(EmptySymbol)
    ensures Simulated(inputs).NotRun? && Simulated(inputs).refusal.NotCovered? ==>
              var missing := Simulated(inputs).refusal.missing;
              && missing != [] && Sorting.Ascending(missing, Text.Less)
              && forall s :: s in missing <==> Listed(inputs.universe, s) && s !in inputs.panel.series
    ensures Simulated(inputs).NotRun? && Simulated(inputs).refusal.UnknownSchedule? ==>
              && inputs.schedule !in {"weekly", "monthly", "quarterly"}
              && inputs.params.lookbackDays < |inputs.panel.dates|
    ensures Simulated(inputs).Finished? || Simulated(inputs).refusal.UnknownSchedule? ==>
              forall s :: Listed(inputs.universe, s) ==> s != "" && s in inputs.panel.series
  {
    RefusedUnlessReady(inputs);
    BadUniverses(inputs.universe);
    hide Normalize, AscendingDates, Restricted, PeriodStarts, Simulated, AuthorizedSymbols, Listed, PeriodKeys;
    var authorized := AuthorizedSymbols(inputs.universe);
    if authorized.Universe? {
      UniverseIsExact(inputs.universe);
      UncoveredIsAscending(authorized.symbols, inputs.panel);
      if Uncovered(authorized.symbols, inputs.panel) == [] {
        NothingUncovered(authorized.symbols, inputs.panel);
      }
    }
  }

  lemma NothingUncovered(symbols: seq<Symbol>, panel: Panel)
    requires Uncovered(symbols, panel) == []
    ensures forall s :: s in symbols ==> s in panel.series
  {
    forall s | s in symbols ensures s in panel.series {
      assert s !in Uncovered(symbols, panel);
    }
  }

  method Measure(panel: Panel, symbols: seq<Symbol>, run: Simulator, riskFreeRate: real) returns (baseline: Baseline)
    ensures baseline == Measured(panel, symbols, run, riskFreeRate)
    ensures WorstFallIfPositive(baseline.curve, baseline.drawdown)
  {
    var curve, returned := BuyAndHold(panel, symbols, FirstFillOf(run));
    var drawdown := MaxDrawdown(curve);
    baseline := Baseline(curve, returned, drawdown, RelativeMetrics(ReturnsOf(run), returned, riskFreeRate));
  }

  method Report(inputs: Inputs, env: Env, run: Simulator) returns (r: Outcome)
    ensures r == Reported(inputs, env, run)
    ensures DrawdownsAreWorstFalls(r)
  {
    hide Measured;
    var drawdown := MaxDrawdown(CurveOf(run));
    var equalWeight := Measure(env.panel, env.symbols, run, inputs.riskFreeRate);
    var benchmark: Option<Baseline> := None;
    if inputs.benchmark != "" && inputs.benchmark in inputs.panel.series {
      var measured := Measure(inputs.panel, [inputs.benchmark], run, inputs.riskFreeRate);
      benchmark := Some(measured);
    }
    r := Finished(run, drawdown, equalWeight, benchmark);
  }

  method RunSimulator(env: Env, tracking: Tracking) returns (run: Simulator)
    requires WellFormed(env)
    ensures run == SimulatorRun(env, tracking)
  {
    hide WellFormed, Run, FrozenRun;
    if tracking.Drifting? {
      var state := SimulateDrift(env);
      run := DriftRun(state);
    } else {
      var frozen := SimulateConstantWeights(env);
      run := ConstantRun(frozen);
    }
  }

  method Simulate(inputs: Inputs) returns (r: Outcome)
    requires ValidInputs(inputs)
    ensures r == Simulated(inputs)
    ensures DrawdownsAreWorstFalls(r)
  {
    hide Normalize, AuthorizedSymbols, RebalanceSchedule, SimulatorRun, Reported, AscendingDates, ValidParams;
    var universe := UniverseSymbols(inputs.universe);
    if universe.BadUniverse? {
      return NotRun(universe.refusal);
    }
    var symbols := universe.symbols;
    var normalized := NormalizeSignals(inputs.signals, inputs.defaultHorizon, inputs.minConfidence, symbols);
    if normalized.Rejected? {
      return NotRun(BadSignal(normalized.reason));
    }
    var missing := Uncovered(symbols, inputs.panel);
    if missing != [] {
      return NotRun(NotCovered(missing));
    }
    DatesAreValid(inputs);
    var indices := RebalanceIndices(inputs.panel.dates, inputs.schedule, inputs.params.lookbackDays);
    if indices.UnsupportedSchedule? {
      return NotRun(UnknownSchedule(indices.schedule));
    }
    var env := Env(Restricted(inputs.panel, symbols), symbols, indices.indices,
                   inputs.params.(topN := TopN(inputs.topN, |symbols|)), normalized.signals);
    PreparedIsWellFormed(inputs);
    var run := RunSimulator(env, inputs.tracking);
    r := Report(inputs, env, run);
  }

  lemma DatesAreValid(inputs: Inputs)
    requires ValidInputs(inputs)
    ensures forall d :: d in inputs.panel.dates ==> ValidDate(d)
  {
  }

  // No look-ahead, from the raw inputs

  ghost predicate SameSpec(a: Inputs, b: Inputs) {
    && a.universe == b.universe && a.schedule == b.schedule && a.params == b.params && a.topN == b.topN
    && a.defaultHorizon == b.defaultHorizon && a.minConfidence == b.minConfidence && a.tracking == b.tracking
  }

  /** Midnight at the end of a day, in UTC seconds since 1970. */
  function EndOf(day: Date): int
    requires ValidDate(day)
  {
    (Ordinal(day) - 719162) * 86400
  }

  /** The universe's columns hold the same bars on the days 0, ..., t. */
  ghost predicate SameUniverseBars(a: Inputs, b: Inputs, t: nat)
    requires ValidInputs(a) && ValidInputs(b) && t < |a.panel.dates| && t < |b.panel.dates|
  {
    forall s, i :: Listed(a.universe, s) && s in a.panel.series && s in b.panel.series && 0 <= i <= t ==>
      a.panel.series[s][i] == b.panel.series[s][i]
  }

  /** The wire lists hold the same items, as often, among those effective before the end of day `t`. */
  ghost predicate SameResearch(a: Inputs, b: Inputs, t: nat)
    requires ValidInputs(a) && t < |a.panel.dates|
  {
    forall w: WireSignal :: w.effectiveAt.Some? && w.effectiveAt.value < EndOf(a.panel.dates[t]) ==>
      multiset(a.signals)[w] == multiset(b.signals)[w]
  }

  /** The same spec; the same dates, universe bars and effective research up to day `t`. */
  ghost predicate SameThrough(a: Inputs, b: Inputs, t: nat)
    requires ValidInputs(a) && ValidInputs(b)
  {
    && SameSpec(a, b)
    && t < |a.panel.dates| && t < |b.panel.dates|
    && (forall i :: 0 <= i <= t ==> a.panel.dates[i] == b.panel.dates[i])
    && SameUniverseBars(a, b, t)
    && SameResearch(a, b, t)
  }

  lemma SchedulesAgree(a: Inputs, b: Inputs, t: nat, i: nat)
    requires ValidInputs(a) && ValidInputs(b) && Prepare(a).Ready? && Prepare(b).Ready? && SameThrough(a, b, t)
             && i <= t
    ensures i in Prepare(a).env.rebalance <==> i in Prepare(b).env.rebalance
  {
    hide Prepare, ScheduledExactly, PeriodStarts, Visible, PeriodKey;
    ScheduleIsExact(a);
    ScheduleIsExact(b);
    if KnownSchedule(a.schedule) {
      var ka, kb := PeriodKeys(a.panel.dates, a.schedule), PeriodKeys(b.panel.dates, b.schedule);
      var minIndex := a.params.lookbackDays;
      PeriodStartsExtend(ka, minIndex, t + 1, |ka|, i);
      PeriodStartsExtend(kb, minIndex, t + 1, |kb|, i);
      PeriodStartsArePointInTime(ka, kb, minIndex, t + 1);
    }
  }

  lemma BarsAgree(a: Inputs, b: Inputs, t: nat)
    requires ValidInputs(a) && ValidInputs(b) && Prepare(a).Ready? && Prepare(b).Ready?
    requires SameSpec(a, b) && t < |a.panel.dates| && t < |b.panel.dates| && SameUniverseBars(a, b, t)
    ensures var (p, q) := (Prepare(a).env.panel, Prepare(b).env.panel);
            && Rectangular(p) && Rectangular(q) && t < |p.dates| && t < |q.dates|
            && SameBarsThrough(p, q, t)
  {
    UniverseIsExact(a.universe);
    CoveredWhenReady(a);
    CoveredWhenReady(b);
    hide Normalize, RebalanceSchedule, AscendingDates, AuthorizedSymbols, Listed;
    RestrictedColumns(a.panel, AuthorizedSymbols(a.universe).symbols);
    RestrictedColumns(b.panel, AuthorizedSymbols(a.universe).symbols);
    hide Restricted, Uncovered;
  }

  lemma CoveredWhenReady(inputs: Inputs)
    requires ValidInputs(inputs) && Prepare(inputs).Ready?
    ensures var authorized := AuthorizedSymbols(inputs.universe);
            && authorized.Universe? && Prepare(inputs).env.symbols == authorized.symbols
            && Uncovered(authorized.symbols, inputs.panel) == []
            && Prepare(inputs).env.panel == Restricted(inputs.panel, authorized.symbols)
  {
    hide Normalize, RebalanceSchedule, AscendingDates, AuthorizedSymbols, Restricted, Uncovered;
  }

  /** Restricting a panel keeps exactly the authorized columns, bar for bar. */
  lemma RestrictedColumns(panel: Panel, symbols: seq<Symbol>)
    requires Uncovered(symbols, panel) == []
    ensures var narrow := Restricted(panel, symbols);
            && narrow.dates == panel.dates
            && (forall s :: s in narrow.series <==> s in symbols)
            && (forall s :: s in symbols ==> s in panel.series && narrow.series[s] == panel.series[s])
  {
    forall s | s in symbols ensures s in panel.series {
      assert s in panel.series || s in Uncovered(symbols, panel);
    }
  }

  lemma SignalsAgree(a: Inputs, b: Inputs, t: nat)
    requires ValidInputs(a) && ValidInputs(b) && Prepare(a).Ready? && Prepare(b).Ready? && SameThrough(a, b, t)
    ensures var day := Ordinal(a.panel.dates[t]);
            forall s: ClaimSignal :: s.effective <= day ==>
              multiset(Prepare(a).env.signals)[s] == multiset(Prepare(b).env.signals)[s]
  {
    assert ValidDate(a.panel.dates[t]);
    var day := Ordinal(a.panel.dates[t]);
    SameResearchIsVisible(a, b, t);
    NormalizedWhenReady(a);
    NormalizedWhenReady(b);
    hide Visible, Normalize, AuthorizedSymbols, AscendingDates, EffectiveBy, Ordinal, Prepare;
    SameSymbolsSameParams(a, b);
    var universe := set s | s in Prepare(a).env.symbols;
    SameVisibleSameEffective(a.signals, b.signals, a.defaultHorizon, a.minConfidence, universe, day);
    forall s: ClaimSignal | s.effective <= day
      ensures multiset(Prepare(a).env.signals)[s] == multiset(Prepare(b).env.signals)[s]
    {
      EffectiveCounts(Prepare(a).env.signals, day, s);
      EffectiveCounts(Prepare(b).env.signals, day, s);
    }
  }

  lemma NormalizedWhenReady(inputs: Inputs)
    requires ValidInputs(inputs) && Prepare(inputs).Ready?
    ensures var env := Prepare(inputs).env;
            Normalize(inputs.signals, inputs.defaultHorizon, inputs.minConfidence, set s | s in env.symbols)
              == Signals(env.signals)
  {
    hide Normalize, RebalanceSchedule, AscendingDates, AuthorizedSymbols, Restricted, Uncovered;
  }

  /** An item is visible on a day exactly when it takes effect before the day ends. */
  lemma VisibleBeforeTheEnd(w: WireSignal, day: Date)
    requires ValidDate(day)
    ensures IsVisible(w, Ordinal(day)) <==> w.effectiveAt.Some? && w.effectiveAt.value < EndOf(day)
  {
    hide Ordinal;
  }

  lemma SameResearchIsVisible(a: Inputs, b: Inputs, t: nat)
    requires ValidInputs(a) && t < |a.panel.dates| && SameResearch(a, b, t)
    ensures var day := Ordinal(a.panel.dates[t]); multiset(Visible(a.signals, day)) == multiset(Visible(b.signals, day))
  {
    assert ValidDate(a.panel.dates[t]);
    var day := Ordinal(a.panel.dates[t]);
    hide Visible, IsVisible, Ordinal, AscendingDates, EndOf;
    forall w ensures multiset(Visible(a.signals, day))[w] == multiset(Visible(b.signals, day))[w] {
      VisibleCounts(a.signals, day, w);
      VisibleCounts(b.signals, day, w);
      VisibleBeforeTheEnd(w, a.panel.dates[t]);
    }
  }

  lemma PreparedAgree(a: Inputs, b: Inputs, t: nat)
    requires ValidInputs(a) && ValidInputs(b) && Prepare(a).Ready? && Prepare(b).Ready? && SameThrough(a, b, t)
    ensures AgreeThrough(Prepare(a).env, Prepare(b).env, t)
  {
    PreparedIsWellFormed(a);
    PreparedIsWellFormed(b);
    SameSymbolsSameParams(a, b);
    SignalsAgree(a, b, t);
    BarsAgree(a, b, t);
    forall i: nat | i <= t ensures i in Prepare(a).env.rebalance <==> i in Prepare(b).env.rebalance {
      SchedulesAgree(a, b, t, i);
    }
    hide Prepare, WellFormed, Visible, Ordinal, ScheduledExactly, SameBarsThrough, SameUniverseBars, SameResearch;
  }

  lemma SameSymbolsSameParams(a: Inputs, b: Inputs)
    requires ValidInputs(a) && ValidInputs(b) && Prepare(a).Ready? && Prepare(b).Ready? && SameSpec(a, b)
    ensures Prepare(a).env.symbols == Prepare(b).env.symbols && Prepare(a).env.params == Prepare(b).env.params
  {
    hide Normalize, RebalanceSchedule, AscendingDates, Restricted, Uncovered;
  }

  /**
   * No look-ahead, end to end: later prices and dates, later research, columns outside the universe and the order
   * of the wire list leave the first t + 1 days of a run exactly as they are.
   */
  lemma TheFutureIsInvisible(a: Inputs, b: Inputs, t: nat, n: nat)
    requires ValidInputs(a) && ValidInputs(b) && Prepare(a).Ready? && Prepare(b).Ready? && SameThrough(a, b, t)
    requires n <= t + 1
    ensures WellFormed(Prepare(a).env) && WellFormed(Prepare(b).env)
    ensures n <= |a.panel.dates| && n <= |b.panel.dates|
    ensures Run(Prepare(a).env, n) == Run(Prepare(b).env, n)
    ensures FrozenRun(Prepare(a).env, n) == FrozenRun(Prepare(b).env, n)
  {
    hide Prepare, Run, FrozenRun, WellFormed;
    PreparedIsWellFormed(a);
    PreparedIsWellFormed(b);
    PreparedAgree(a, b, t);
    RunsAgree(Prepare(a).env, Prepare(b).env, t, n);
    FrozenRunsAgree(Prepare(a).env, Prepare(b).env, t, n);
  }

  /** Permuting the wire list neither refuses a run nor changes anything in it or in what it is measured against. */
  lemma SignalOrderIsForgotten(a: Inputs, signals: seq<WireSignal>)
    requires ValidInputs(a) && ValidInputs(a.(signals := signals)) && multiset(a.signals) == multiset(signals)
    ensures Simulated(a).Finished? <==> Simulated(a.(signals := signals)).Finished?
    ensures Simulated(a).Finished? ==> Simulated(a) == Simulated(a.(signals := signals))
  {
    var b := a.(signals := signals);
    ReadyForgetsOrder(a, signals);
    hide Reported, SimulatorRun, WellFormed;
    if Prepare(a).Ready? {
      SameRun(a, signals);
      SamePanel(a, signals);
      hide Prepare;
      SameReport(a, signals, Prepare(a).env, Prepare(b).env, SimulatorRun(Prepare(a).env, a.tracking));
    }
  }

  lemma SameReport(a: Inputs, signals: seq<WireSignal>, p: Env, q: Env, run: Simulator)
    requires p.panel == q.panel && p.symbols == q.symbols
    ensures Reported(a, p, run) == Reported(a.(signals := signals), q, run)
  {
    hide Measured;
  }

  lemma SamePanel(a: Inputs, signals: seq<WireSignal>)
    requires ValidInputs(a) && ValidInputs(a.(signals := signals))
    requires Prepare(a).Ready? && Prepare(a.(signals := signals)).Ready?
    ensures Prepare(a).env.panel == Prepare(a.(signals := signals)).env.panel
    ensures Prepare(a).env.symbols == Prepare(a.(signals := signals)).env.symbols
  {
    hide Normalize, RebalanceSchedule, AscendingDates, Restricted, Uncovered;
  }

  lemma EmptyRun(env: Env, tracking: Tracking)
    requires WellFormed(env) && env.panel.dates == []
    ensures SimulatorRun(env, tracking) == if tracking.Drifting? then DriftRun(INITIAL) else ConstantRun(FROZEN_INITIAL)
  {
    hide WellFormed, Run, FrozenRun;
    RunStart(env);
    FrozenStart(env);
  }

  lemma SameRun(a: Inputs, signals: seq<WireSignal>)
    requires ValidInputs(a) && ValidInputs(a.(signals := signals)) && multiset(a.signals) == multiset(signals)
    requires Prepare(a).Ready? && Prepare(a.(signals := signals)).Ready?
    ensures WellFormed(Prepare(a).env) && WellFormed(Prepare(a.(signals := signals)).env)
    ensures SimulatorRun(Prepare(a).env, a.tracking) == SimulatorRun(Prepare(a.(signals := signals)).env, a.tracking)
  {
    hide Prepare, WellFormed, Run, FrozenRun, ValidInputs;
    PreparedKeepsDates(a);
    PreparedKeepsDates(a.(signals := signals));
    if |a.panel.dates| == 0 {
      EmptyRun(Prepare(a).env, a.tracking);
      EmptyRun(Prepare(a.(signals := signals)).env, a.tracking);
    } else {
      SameDays(a, signals);
    }
  }

  lemma PreparedKeepsDates(inputs: Inputs)
    requires ValidInputs(inputs) && Prepare(inputs).Ready?
    ensures WellFormed(Prepare(inputs).env) && Prepare(inputs).env.panel.dates == inputs.panel.dates
  {
    PreparedIsWellFormed(inputs);
    hide Prepare, WellFormed;
  }

  lemma SameDays(a: Inputs, signals: seq<WireSignal>)
    requires ValidInputs(a) && ValidInputs(a.(signals := signals)) && multiset(a.signals) == multiset(signals)
    requires Prepare(a).Ready? && Prepare(a.(signals := signals)).Ready? && |a.panel.dates| > 0
    ensures WellFormed(Prepare(a).env) && WellFormed(Prepare(a.(signals := signals)).env)
    ensures |Prepare(a).env.panel.dates| == |a.panel.dates| == |Prepare(a.(signals := signals)).env.panel.dates|
    ensures Run(Prepare(a).env, |a.panel.dates|) == Run(Prepare(a.(signals := signals)).env, |a.panel.dates|)
    ensures FrozenRun(Prepare(a).env, |a.panel.dates|)
            == FrozenRun(Prepare(a.(signals := signals)).env, |a.panel.dates|)
  {
    var n := |a.panel.dates|;
    hide Prepare, Run, FrozenRun, WellFormed, Visible;
    PreparedKeepsDates(a);
    PreparedKeepsDates(a.(signals := signals));
    SameSignalsSameVisible(a.signals, signals, Ordinal(a.panel.dates[n - 1]));
    TheFutureIsInvisible(a, a.(signals := signals), n - 1, n);
  }

  lemma SameSignalsSameVisible(a: seq<WireSignal>, b: seq<WireSignal>, day: int)
    requires multiset(a) == multiset(b)
    ensures multiset(Visible(a, day)) == multiset(Visible(b, day))
  {
    forall w ensures multiset(Visible(a, day))[w] == multiset(Visible(b, day))[w] {
      VisibleCounts(a, day, w);
      VisibleCounts(b, day, w);
    }
  }

  lemma ReadyForgetsOrder(a: Inputs, signals: seq<WireSignal>)
    requires ValidInputs(a) && ValidInputs(a.(signals := signals)) && multiset(a.signals) == multiset(signals)
    ensures Prepare(a).Ready? <==> Prepare(a.(signals := signals)).Ready?
  {
    hide AuthorizedSymbols, RebalanceSchedule, AscendingDates, Restricted, Uncovered;
    if AuthorizedSymbols(a.universe).Universe? {
      var universe := set s | s in AuthorizedSymbols(a.universe).symbols;
      CollectForgetsOrder(a.signals, signals, a.defaultHorizon, a.minConfidence, universe);
      hide Collect;
    }
  }

  /** The inputs of a run over the signals projected from these claims. */
  function WithClaims(inputs: Inputs, claims: seq<SignalProjection.StoredClaim>, cutoff: int): Inputs {
    inputs.(signals := SignalProjection.Projected(claims, inputs.universe, cutoff))
  }

  /** Across both services: research effective after day `t` cannot move the run through that day. */
  lemma LaterResearchCannotMoveTheRun(
      inputs: Inputs, claims: seq<SignalProjection.StoredClaim>, others: seq<SignalProjection.StoredClaim>, cutoff: int,
      t: nat, n: nat)
    requires ValidInputs(inputs) && t < |inputs.panel.dates| && n <= t + 1
    requires SignalProjection.DistinctIds(claims) && SignalProjection.DistinctIds(others)
    requires inputs.defaultHorizon >= 1 && forall c :: c in claims + others ==> ValidClaim(c)
    requires SameBefore(claims, others, EndOf(inputs.panel.dates[t]))
    requires Prepare(inputs.(signals := [])).Ready?
    ensures ValidInputs(WithClaims(inputs, claims, cutoff)) && ValidInputs(WithClaims(inputs, others, cutoff))
    ensures var (p, q) := (Prepare(WithClaims(inputs, claims, cutoff)), Prepare(WithClaims(inputs, others, cutoff)));
            && p.Ready? && WellFormed(p.env) && q.Ready? && WellFormed(q.env)
            && n <= |p.env.panel.dates| && n <= |q.env.panel.dates|
            && Run(p.env, n) == Run(q.env, n)
            && FrozenRun(p.env, n) == FrozenRun(q.env, n)
  {
    hide Run, FrozenRun, WellFormed, Ordinal, SignalProjection.Projected;
    var a, b := WithClaims(inputs, claims, cutoff), WithClaims(inputs, others, cutoff);
    ClaimsAreTaken(inputs, claims, cutoff);
    ClaimsAreTaken(inputs, others, cutoff);
    hide Prepare;
    LaterResearchIsInvisible(claims, others, inputs.universe, cutoff, EndOf(inputs.panel.dates[t]));
    PreparedIsWellFormed(a);
    PreparedIsWellFormed(b);
    TheFutureIsInvisible(a, b, t, n);
  }

  lemma ClaimsAreTaken(inputs: Inputs, claims: seq<SignalProjection.StoredClaim>, cutoff: int)
    requires ValidInputs(inputs) && inputs.defaultHorizon >= 1 && forall c :: c in claims ==> ValidClaim(c)
    requires Prepare(inputs.(signals := [])).Ready?
    ensures ValidInputs(WithClaims(inputs, claims, cutoff)) && Prepare(WithClaims(inputs, claims, cutoff)).Ready?
  {
    hide SignalProjection.Projected, AuthorizedSymbols, RebalanceSchedule, AscendingDates, Restricted, Uncovered;
    hide Normalize;
    var universe := set s | s in AuthorizedSymbols(inputs.universe).symbols;
    ProjectedSignalsAreTaken(claims, inputs.universe, cutoff, inputs.defaultHorizon, inputs.minConfidence, universe);
  }
}
