/**
 * A request built to order: n names on evenly spaced returns, the first with full support and the others with two
 * claims of chosen scores. It shows that the bounds proved of all requests are reached.
 */
module Ladder {
  import opened Calendar
  import opened Claims
  import opened Drift
  import opened Ledger
  import opened Market
  import opened Options
  import opened Ranking
  import opened Selection
  import opened Simulation
  import Sorting
  import SignalIntake
  import Text

  /** Returns `a`, a + step, ...; `after` flat days follow the decision; `first` and `second` score the other names. */
  datatype Plan = Plan(n: nat, a: real, step: real, after: nat, first: real, second: real)

  predicate ValidScore(score: real, floor: real) {
    -1.0 <= score <= 1.0 && Abs(score) >= floor
  }

  ghost predicate ValidPlan(plan: Plan, params: Params, floor: real) {
    && ValidParams(params) && 0.0 <= floor <= 1.0
    && plan.n >= 1
    && (forall i :: 0 <= i < plan.n ==> Rise(plan, i) > -1.0 && PassesGates(Rise(plan, i), params.gates))
    && ValidScore(plan.first, floor) && ValidScore(plan.second, floor)
    && (params.requireClaimSupport ==> plan.first + plan.second > 0.0)
  }

  // Names

  function Name(i: nat): string {
    if i == 0 then "A" else "A" + Name(i - 1)
  }

  lemma {:induction false} NameLetters(i: nat)
    ensures |Name(i)| == i + 1
    ensures forall k :: 0 <= k <= i ==> Name(i)[k] == 'A'
  {
    if i > 0 {
      NameLetters(i - 1);
    }
  }

  lemma {:induction false} NamesAscend(i: nat, j: nat)
    requires i < j
    ensures Text.Less(Name(i), Name(j))
  {
    if i == 0 {
      assert Name(j)[1..] == Name(j - 1);
    } else {
      assert Name(i)[1..] == Name(i - 1) && Name(j)[1..] == Name(j - 1);
      NamesAscend(i - 1, j - 1);
    }
  }

  lemma NamesDiffer(i: nat, j: nat)
    requires i != j
    ensures Name(i) != Name(j)
  {
    NameLetters(i);
    NameLetters(j);
  }

  function NamesTo(n: nat): (names: seq<Symbol>)
    ensures |names| == n
  {
    seq(n, i requires 0 <= i < n => Name(i))
  }

  lemma NamesAreClean(n: nat)
    ensures Sorting.Ascending(NamesTo(n), Text.Less) && Sorting.Distinct(NamesTo(n))
    ensures forall s :: s in NamesTo(n) ==> s != "" && Text.Trim(s) == s
  {
    forall i, j | 0 <= i < j < n ensures Text.Less(NamesTo(n)[i], NamesTo(n)[j]) && NamesTo(n)[i] != NamesTo(n)[j] {
      NamesAscend(i, j);
      NamesDiffer(i, j);
    }
    forall s | s in NamesTo(n) ensures s != "" && Text.Trim(s) == s {
      var i :| 0 <= i < n && NamesTo(n)[i] == s;
      NameLetters(i);
      Text.TrimmedStays(s);
    }
  }

  // A list of clean ascending names is its own universe

  lemma {:induction false} CleanNames(raw: seq<string>)
    requires Sorting.Distinct(raw) && forall s :: s in raw ==> Text.Trim(s) == s
    ensures Names(raw) == raw
  {
    if |raw| > 0 {
      var front, last := raw[..|raw| - 1], raw[|raw| - 1];
      CleanNames(front);
      assert last in raw && raw == front + [last];
      assert last !in front;
    }
  }

  lemma CleanUniverse(raw: seq<string>)
    requires raw != [] && Sorting.Ascending(raw, Text.Less) && Sorting.Distinct(raw)
    requires forall s :: s in raw ==> s != "" && Text.Trim(s) == s
    ensures AuthorizedSymbols(raw) == Universe(raw)
  {
    CleanNames(raw);
    hide Text.Less, Text.Trim;
    assert Sorting.Sorted(raw, SymbolLe);
    Sorting.SortedStays(raw, SymbolLe);
  }

  lemma {:induction false} AllCovered(symbols: seq<Symbol>, panel: Panel)
    requires forall s :: s in symbols ==> s in panel.series
    ensures Uncovered(symbols, panel) == []
  {
    if |symbols| > 0 {
      AllCovered(symbols[..|symbols| - 1], panel);
    }
  }

  // Prices

  /** The return of name `i`. */
  function Rise(plan: Plan, i: int): real {
    plan.a + i as real * plan.step
  }

  /** One day a year. */
  function Dates(count: nat): (dates: seq<Date>)
    ensures |dates| == count
  {
    seq(count, j requires 0 <= j < count => Date(j + 1, 1, 1))
  }

  lemma DatesAscend(count: nat)
    ensures AscendingDates(Dates(count))
  {
    forall j | 0 <= j < count ensures ValidDate(Dates(count)[j]) {
    }
  }

  /** At one until the decision day, and at `price` from then on. */
  function Column(lookback: nat, after: nat, price: real): (bars: seq<Option<real>>)
    ensures |bars| == lookback + after + 1
  {
    seq(lookback + after + 1, j requires 0 <= j < lookback + after + 1 => Some(if j < lookback then 1.0 else price))
  }

  function Columns(plan: Plan, lookback: nat): map<Symbol, seq<Option<real>>> {
    map s | s in NamesTo(plan.n) :: Column(lookback, plan.after, 1.0 + Rise(plan, |s| - 1))
  }

  function Prices(plan: Plan, lookback: nat): Panel {
    Panel(Dates(lookback + plan.after + 1), Columns(plan, lookback))
  }

  lemma ColumnOf(plan: Plan, lookback: nat, name: Symbol, i: nat)
    requires name in NamesTo(plan.n) && |name| == i + 1
    ensures name in Columns(plan, lookback)
    ensures Columns(plan, lookback)[name] == Column(lookback, plan.after, 1.0 + Rise(plan, i))
  {
    hide Name, NamesTo, Rise, Column;
  }

  lemma ColumnBars(lookback: nat, after: nat, price: real)
    requires lookback > 0
    ensures Column(lookback, after, price)[lookback] == Some(price) && Column(lookback, after, price)[0] == Some(1.0)
  {
  }

  lemma RungBars(plan: Plan, lookback: nat, i: nat)
    requires i < plan.n && lookback > 0
    ensures var panel := Prices(plan, lookback);
            Bar(panel, Name(i), lookback) == Some(1.0 + Rise(plan, i)) && Bar(panel, Name(i), 0) == Some(1.0)
  {
    NameLetters(i);
    assert NamesTo(plan.n)[i] == Name(i);
    ColumnOf(plan, lookback, Name(i), i);
    ColumnBars(lookback, plan.after, 1.0 + Rise(plan, i));
    hide Name, NamesTo, Rise, Column, Columns, Dates;
  }

  lemma PricesArePositive(plan: Plan, lookback: nat)
    requires forall i :: 0 <= i < plan.n ==> Rise(plan, i) > -1.0
    ensures PositivePrices(Prices(plan, lookback))
  {
    var panel := Prices(plan, lookback);
    forall s, i | s in panel.series && 0 <= i < |panel.series[s]| && panel.series[s][i].Some?
      ensures panel.series[s][i].value > 0.0
    {
      RungIsPositive(plan, lookback, s, i);
    }
  }

  lemma RungIsPositive(plan: Plan, lookback: nat, name: Symbol, i: nat)
    requires forall k :: 0 <= k < plan.n ==> Rise(plan, k) > -1.0
    requires name in NamesTo(plan.n) && i <= lookback + plan.after
    ensures name in Columns(plan, lookback) && |Columns(plan, lookback)[name]| == lookback + plan.after + 1
    ensures Columns(plan, lookback)[name][i].Some? && Columns(plan, lookback)[name][i].value > 0.0
  {
    var k :| 0 <= k < plan.n && NamesTo(plan.n)[k] == name;
    assert name == Name(k);
    NameLetters(k);
    ColumnOf(plan, lookback, name, k);
    hide Rise, Name, NamesTo, Columns;
  }

  // Claims

  function Scores(plan: Plan, i: nat): (real, real) {
    if i == 0 then (1.0, 1.0) else (plan.first, plan.second)
  }

  /** The support name `i` gets. */
  function SupportAt(plan: Plan, i: nat): real {
    Clamp(Scores(plan, i).0 + Scores(plan, i).1)
  }

  function Wire(id: string, symbol: Symbol, score: real, seconds: int): WireSignal {
    WireSignal(id, symbol, if score >= 0.0 then "positive" else "negative", Abs(score), Some(seconds), Some(1))
  }

  /** Two claims for each of the first `k` names. */
  function Wires(plan: Plan, seconds: int, k: nat): seq<WireSignal> {
    if k == 0 then []
    else Wires(plan, seconds, k - 1)
         + [Wire("c", Name(k - 1), Scores(plan, k - 1).0, seconds),
           Wire("d", Name(k - 1), Scores(plan, k - 1).1, seconds)]
  }

  function Pair(plan: Plan, day: int, i: nat): seq<ClaimSignal> {
    [ClaimSignal("c", Name(i), Scores(plan, i).0, day, day + 1),
      ClaimSignal("d", Name(i), Scores(plan, i).1, day, day + 1)]
  }

  function Pairs(plan: Plan, day: int, k: nat): seq<ClaimSignal> {
    if k == 0 then [] else Pairs(plan, day, k - 1) + Pair(plan, day, k - 1)
  }

  function SecondsOf(day: int): int {
    (day - EPOCH_DAY) * SECONDS_PER_DAY
  }

  lemma SecondsGiveTheDay(day: int)
    ensures DayOf(SecondsOf(day)) == day
  {
  }

  lemma WireResolves(id: string, symbol: Symbol, score: real, day: int, floor: real, universe: set<Symbol>)
    requires ValidScore(score, floor) && symbol in universe && symbol != "" && Text.Trim(symbol) == symbol
    ensures Resolve(Wire(id, symbol, score, SecondsOf(day)), 1, floor, universe)
         == Kept(ClaimSignal(id, symbol, score, day, day + 1))
  {
    SecondsGiveTheDay(day);
    hide SecondsOf, Text.Trim;
  }

  lemma {:induction false} WiresCollect(plan: Plan, day: int, floor: real, universe: set<Symbol>, k: nat)
    requires 0.0 <= floor <= 1.0 && ValidScore(plan.first, floor) && ValidScore(plan.second, floor)
    requires forall i: nat :: i < k ==> Name(i) in universe
    ensures Collect(Wires(plan, SecondsOf(day), k), 1, floor, universe) == Signals(Pairs(plan, day, k))
  {
    hide SecondsOf, Resolve, Wire;
    if k > 0 {
      var i, seconds := k - 1, SecondsOf(day);
      WiresCollect(plan, day, floor, universe, i);
      NamesAreClean(k);
      assert NamesTo(k)[i] == Name(i);
      WireResolves("c", Name(i), Scores(plan, i).0, day, floor, universe);
      WireResolves("d", Name(i), Scores(plan, i).1, day, floor, universe);
      var one, two := Wire("c", Name(i), Scores(plan, i).0, seconds), Wire("d", Name(i), Scores(plan, i).1, seconds);
      SignalIntake.CollectConcat(Wires(plan, seconds, i), [one, two], 1, floor, universe);
      TwoCollect(one, two, Pair(plan, day, i)[0], Pair(plan, day, i)[1], floor, universe);
      assert Pair(plan, day, i) == [Pair(plan, day, i)[0], Pair(plan, day, i)[1]];
    }
  }

  lemma TwoCollect(one: WireSignal, two: WireSignal, a: ClaimSignal, b: ClaimSignal, floor: real, universe: set<Symbol>)
    requires Resolve(one, 1, floor, universe) == Kept(a) && Resolve(two, 1, floor, universe) == Kept(b)
    ensures Collect([one, two], 1, floor, universe) == Signals([a, b])
  {
    hide Resolve;
    assert [one, two][..1] == [one] && [one][..0] == [];
    assert Collect([one], 1, floor, universe) == Signals([a]);
  }

  lemma {:induction false} PairsHaveNames(plan: Plan, day: int, k: nat, x: ClaimSignal) returns (i: nat)
    requires x in Pairs(plan, day, k)
    ensures i < k && x.symbol == Name(i)
  {
    if x in Pairs(plan, day, k - 1) {
      i := PairsHaveNames(plan, day, k - 1, x);
    } else {
      i := k - 1;
    }
  }

  lemma {:induction false} PairsAreSorted(plan: Plan, day: int, k: nat)
    ensures Sorting.Sorted(Pairs(plan, day, k), SignalLe)
  {
    if k > 0 {
      PairsAreSorted(plan, day, k - 1);
      var before, pair := Pairs(plan, day, k - 1), Pair(plan, day, k - 1);
      hide Pairs;
      forall x, y | x in before && y in pair ensures SignalLe(x, y) {
        var i := PairsHaveNames(plan, day, k - 1, x);
        NamesAscend(i, k - 1);
        NamesDiffer(i, k - 1);
        hide Name;
      }
      PairIsSorted(plan, day, k - 1);
      Sorting.SortedConcat(before, pair, SignalLe);
    }
    hide SignalLe;
  }

  lemma PairIsSorted(plan: Plan, day: int, i: nat)
    ensures Sorting.Sorted(Pair(plan, day, i), SignalLe)
  {
    hide Name;
  }

  lemma {:induction false} LiveRung(plan: Plan, day: int, i: nat, k: nat)
    ensures LiveFor(Pairs(plan, day, k), day, Name(i)) == if i < k then Pair(plan, day, i) else []
  {
    hide LiveFor, Pair, Name;
    if k == 0 {
      NothingLive(day, Name(i));
    } else {
      LiveRung(plan, day, i, k - 1);
      LiveConcat(Pairs(plan, day, k - 1), Pair(plan, day, k - 1), day, Name(i));
      LivePair(plan, day, i, k - 1);
    }
  }

  lemma NothingLive(day: int, symbol: Symbol)
    ensures LiveFor([], day, symbol) == []
  {
  }

  lemma LivePair(plan: Plan, day: int, i: nat, k: nat)
    ensures LiveFor(Pair(plan, day, k), day, Name(i)) == if i == k then Pair(plan, day, k) else []
  {
    if i != k {
      NamesDiffer(i, k);
    }
    hide Name;
    var pair := Pair(plan, day, k);
    assert pair[..1] == [pair[0]] && pair[..1][..0] == [];
    assert LiveFor(pair[..1], day, Name(i)) == if i == k then [pair[0]] else [];
  }

  lemma RungSupport(plan: Plan, day: int, i: nat)
    requires i < plan.n
    ensures SupportOf(ClaimScores(ActiveGroups(Pairs(plan, day, plan.n), day)), Name(i)) == SupportAt(plan, i)
  {
    var signals := Pairs(plan, day, plan.n);
    SupportIsClampedNet(signals, day, Name(i));
    LiveRung(plan, day, i, plan.n);
    hide Name, LiveFor, ClaimScores, ActiveGroups, SupportOf, Clamp, Pairs;
    TwoNet(Active(signals, day, Name(i)), Scores(plan, i).0, Scores(plan, i).1);
  }

  lemma TwoNet(evidence: seq<Evidence>, x: real, y: real)
    requires |evidence| == 2 && evidence[0].contribution == x && evidence[1].contribution == y
    ensures Claims.Net(evidence) == x + y
  {
    assert evidence[..1][..0] == [];
    assert Claims.Net(evidence[..1]) == x;
  }

  // The request

  function Request(plan: Plan, params: Params, floor: real): Inputs {
    var dates := Dates(params.lookbackDays + plan.after + 1);
    DatesAscend(params.lookbackDays + plan.after + 1);
    Inputs(Prices(plan, params.lookbackDays), NamesTo(plan.n), "monthly", params, None, Drifting, 1, floor, 0.0, "",
           Wires(plan, SecondsOf(Ordinal(dates[params.lookbackDays])), plan.n))
  }

  /** The day number of the decision. */
  function DecisionDay(plan: Plan, params: Params): int {
    var dates := Dates(params.lookbackDays + plan.after + 1);
    DatesAscend(params.lookbackDays + plan.after + 1);
    Ordinal(dates[params.lookbackDays])
  }

  lemma RequestIsValid(plan: Plan, params: Params, floor: real)
    requires ValidPlan(plan, params, floor)
    ensures ValidInputs(Request(plan, params, floor))
  {
    DatesAscend(params.lookbackDays + plan.after + 1);
    ColumnsAreRectangular(plan, params.lookbackDays);
    RequestFields(plan, params, floor);
    hide AscendingDates, Ordinal, Rectangular, Prices, Wires, NamesTo, ValidParams, PassesGates;
  }

  lemma ColumnsAreRectangular(plan: Plan, lookback: nat)
    ensures Rectangular(Prices(plan, lookback)) && Prices(plan, lookback).dates == Dates(lookback + plan.after + 1)
  {
    hide NamesTo, Rise, Dates;
  }

  /** A panel with no column beyond the universe is its own restriction. */
  lemma RestrictionStays(panel: Panel, symbols: seq<Symbol>)
    requires forall s :: s in panel.series <==> s in symbols
    ensures Uncovered(symbols, panel) == []
    ensures Restricted(panel, symbols) == panel
  {
    AllCovered(symbols, panel);
    assert Restricted(panel, symbols).series == panel.series;
  }

  lemma RequestUniverse(plan: Plan, params: Params, floor: real)
    requires plan.n >= 1
    ensures AuthorizedSymbols(Request(plan, params, floor).universe) == Universe(NamesTo(plan.n))
    ensures Uncovered(NamesTo(plan.n), Prices(plan, params.lookbackDays)) == []
    ensures Restricted(Prices(plan, params.lookbackDays), NamesTo(plan.n)) == Prices(plan, params.lookbackDays)
  {
    hide Rise, Column, Name, NamesTo, Wires, Dates, Ordinal, AuthorizedSymbols, Uncovered, Restricted, AscendingDates;
    NamesAreClean(plan.n);
    CleanUniverse(NamesTo(plan.n));
    RestrictionStays(Prices(plan, params.lookbackDays), NamesTo(plan.n));
  }

  lemma RequestSignals(plan: Plan, params: Params, floor: real)
    requires ValidPlan(plan, params, floor)
    ensures var universe := set s | s in NamesTo(plan.n);
            Normalize(Request(plan, params, floor).signals, 1, floor, universe)
              == Signals(Pairs(plan, DecisionDay(plan, params), plan.n))
  {
    var day := DecisionDay(plan, params);
    forall i: nat | i < plan.n ensures Name(i) in NamesTo(plan.n) {
      assert NamesTo(plan.n)[i] == Name(i);
    }
    hide Name, NamesTo, Prices, Ordinal;
    WiresCollect(plan, day, floor, (set s | s in NamesTo(plan.n)), plan.n);
    PairsAreSorted(plan, day, plan.n);
    Sorting.SortedStays(Pairs(plan, day, plan.n), SignalLe);
  }

  /** The request is accepted as it stands, and decides on the day the lookback is first full. */
  lemma RequestIsReady(plan: Plan, params: Params, floor: real)
    requires ValidPlan(plan, params, floor)
    ensures ValidInputs(Request(plan, params, floor)) && Prepare(Request(plan, params, floor)).Ready?
    ensures var env := Prepare(Request(plan, params, floor)).env;
            && env.panel == Prices(plan, params.lookbackDays) && PositivePrices(env.panel)
            && env.symbols == NamesTo(plan.n)
            && env.params == params.(topN := TopN(None, plan.n))
            && env.signals == Pairs(plan, DecisionDay(plan, params), plan.n)
            && params.lookbackDays in env.rebalance
  {
    var inputs := Request(plan, params, floor);
    RequestIsValid(plan, params, floor);
    RequestUniverse(plan, params, floor);
    RequestSignals(plan, params, floor);
    PricesArePositive(plan, params.lookbackDays);
    hide AuthorizedSymbols, Normalize, Uncovered, Restricted, Prices, Wires, NamesTo, AscendingDates, ValidParams;
    hide ValidPlan;
    hide PositivePrices, PeriodKeys, PassesGates, Pairs, DecisionDay;
    RequestDecides(inputs);
  }

  lemma RequestDecides(inputs: Inputs)
    requires ValidInputs(inputs) && Prepare(inputs).Ready? && inputs.schedule == "monthly"
    requires inputs.params.lookbackDays < |inputs.panel.dates|
    ensures inputs.params.lookbackDays in Prepare(inputs).env.rebalance
  {
    hide Prepare, PeriodKeys;
    ScheduleIsExact(inputs);
    assert FirstOfPeriod(PeriodKeys(inputs.panel.dates, inputs.schedule), inputs.params.lookbackDays,
        inputs.params.lookbackDays);
  }

  lemma RequestFields(plan: Plan, params: Params, floor: real)
    ensures var inputs := Request(plan, params, floor);
            && inputs.params == params && inputs.tracking.Drifting? && |inputs.universe| == plan.n
            && |inputs.panel.dates| == params.lookbackDays + plan.after + 1
  {
    hide Wires, Columns, NamesTo, Ordinal, AscendingDates;
  }

  // Its cross-section

  function Rungs(plan: Plan): (es: seq<Eligible>)
    ensures |es| == plan.n
  {
    seq(plan.n, i requires 0 <= i < plan.n => Eligible(Name(i), Rise(plan, i), SupportAt(plan, i)))
  }

  lemma QualifyAs(
      panel: Panel, symbol: Symbol, index: nat, params: Params, scores: map<Symbol, real>, momentum: real,
        support: real)
    requires Bar(panel, symbol, index) == Some(1.0 + momentum)
    requires Bar(panel, symbol, index - params.lookbackDays) == Some(1.0)
    requires PassesGates(momentum, params.gates) && SupportOf(scores, symbol) == support
    requires params.requireClaimSupport ==> support > 0.0
    ensures Qualify(panel, symbol, index, params, scores) == Some(Eligible(symbol, momentum, support))
  {
    hide PassesGates, SupportOf, Bar;
    assert (1.0 + momentum) / 1.0 - 1.0 == momentum;
  }

  lemma RungQualifies(plan: Plan, params: Params, day: int, i: nat)
    requires i < plan.n && params.lookbackDays > 0 && PassesGates(Rise(plan, i), params.gates)
    requires params.requireClaimSupport ==> plan.first + plan.second > 0.0
    ensures Qualify(Prices(plan, params.lookbackDays), Name(i), params.lookbackDays, params,
                    ClaimScores(ActiveGroups(Pairs(plan, day, plan.n), day)))
              == Some(Rungs(plan)[i])
  {
    hide Name, Rise, ClaimScores, ActiveGroups, Pairs, SupportOf, PassesGates, Prices, Qualify;
    RungBars(plan, params.lookbackDays, i);
    RungSupport(plan, day, i);
    QualifyAs(Prices(plan, params.lookbackDays), Name(i), params.lookbackDays, params,
              ClaimScores(ActiveGroups(Pairs(plan, day, plan.n), day)), Rise(plan, i), SupportAt(plan, i));
  }

  lemma {:induction false} RungsAreEligible(plan: Plan, params: Params, day: int, k: nat)
    requires k <= plan.n && params.lookbackDays > 0
    requires forall i :: 0 <= i < plan.n ==> PassesGates(Rise(plan, i), params.gates)
    requires params.requireClaimSupport ==> plan.first + plan.second > 0.0
    ensures Eligibles(Prices(plan, params.lookbackDays), NamesTo(plan.n)[..k], params.lookbackDays, params,
                      ClaimScores(ActiveGroups(Pairs(plan, day, plan.n), day)))
              == Rungs(plan)[..k]
  {
    hide Qualify, ClaimScores, ActiveGroups, PassesGates, Rungs, Prices, Pairs, Rise;
    if k > 0 {
      RungsAreEligible(plan, params, day, k - 1);
      RungQualifies(plan, params, day, k - 1);
      var front := NamesTo(plan.n)[..k];
      assert front[..k - 1] == NamesTo(plan.n)[..k - 1] && front[k - 1] == Name(k - 1);
      assert Rungs(plan)[..k] == Rungs(plan)[..k - 1] + [Rungs(plan)[k - 1]];
    }
  }
}
