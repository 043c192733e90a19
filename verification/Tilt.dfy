/** How far claims can tilt a ranking: exactly when some day's research can reorder two names with different returns. */
module Tilt {
  import opened Calendar
  import opened Claims
  import opened Drift
  import opened Ladder
  import opened Ledger
  import opened Market
  import opened Options
  import opened Ranking
  import opened Selection
  import opened Simulation
  import Reals
  import Sorting

  /** A request under this spec: its parameters, with any number of names to hold, and its confidence floor. */
  ghost predicate UnderSpec(inputs: Inputs, params: Params, floor: real) {
    && ValidInputs(inputs) && inputs.params == params && inputs.minConfidence == floor && inputs.defaultHorizon >= 1
    && PositivePrices(inputs.panel)
    && Prepare(inputs).Ready?
  }

  /** The eligible names of a day, as that day's decision ranks them. */
  function CrossSection(inputs: Inputs, index: nat): seq<Eligible>
    requires ValidInputs(inputs) && Prepare(inputs).Ready? && index < |inputs.panel.dates|
  {
    var env := Prepare(inputs).env;
    PreparedIsWellFormed(inputs);
    Eligibles(env.panel, env.symbols, index, env.params,
              ClaimScores(ActiveGroups(env.signals, Ordinal(env.panel.dates[index]))))
  }

  /** A scheduled decision day of such a request with `n` eligible names. */
  ghost predicate DecidesAmong(inputs: Inputs, index: nat, n: nat, params: Params, floor: real) {
    && UnderSpec(inputs, params, floor)
    && index < |inputs.panel.dates| && index in Prepare(inputs).env.rebalance
    && |CrossSection(inputs, index)| == n
  }

  /** The claims put `low` ahead of a name with a better return. */
  ghost predicate Overturns(es: seq<Eligible>, low: Eligible, high: Eligible, params: Params) {
    && low in es && high in es && low.momentum < high.momentum
    && Beats(ScoreOne(es, low, params), ScoreOne(es, high, params))
  }

  ghost predicate Reorders(inputs: Inputs, index: nat, n: nat, params: Params, floor: real, low: Eligible,
      high: Eligible) {
    DecidesAmong(inputs, index, n, params, floor) && Overturns(CrossSection(inputs, index), low, high, params)
  }

  /** For some panel, universe and wire list, a decision among `n` names has two of them reordered. */
  ghost predicate TiltCanReorder(n: nat, params: Params, floor: real) {
    exists inputs: Inputs, index: nat, low: Eligible, high: Eligible ::
      Reorders(inputs, index, n, params, floor, low, high)
  }

  /** What a full-confidence claim is worth, in steps of the ranking of n names. */
  function TiltSteps(n: nat, params: Params): real {
    params.signalWeight * (n - 1) as real
  }

  /** The gates let two different returns through. */
  ghost predicate GatesLeaveAChoice(gates: seq<Gate>) {
    exists a: real, b: real :: -1.0 < a < b && PassesGates(a, gates) && PassesGates(b, gates)
  }

  predicate TiltSuffices(n: nat, params: Params, floor: real) {
    if params.requireClaimSupport then TiltSteps(n, params) > 2.0 && floor < 1.0 else TiltSteps(n, params) >= 1.0
  }

  /**
   * In rank space the claims of some request reorder two of a decision's n names exactly when the gates leave a choice
   * and weight * (n - 1) reaches one. Where every eligible name must have positive support, it must exceed two and the
   * confidence floor must leave room for a claim that is not certain. Without gates the tilt alone decides.
   */
  lemma TiltBoundIsSharp(n: nat, params: Params, floor: real)
    requires ValidParams(params) && params.scale.RankScale? && 0.0 <= floor <= 1.0 && n >= 2
    ensures TiltCanReorder(n, params, floor) <==> GatesLeaveAChoice(params.gates) && TiltSuffices(n, params, floor)
    ensures params.gates == [] ==> (TiltCanReorder(n, params, floor) <==> TiltSuffices(n, params, floor))
  {
    hide Reorders, TiltSuffices, PassesGates;
    if TiltCanReorder(n, params, floor) {
      var inputs: Inputs, index: nat, low: Eligible, high: Eligible :| Reorders(inputs, index, n, params, floor, low,
          high);
      ReorderingNeedsTilt(inputs, index, n, params, floor, low, high);
    }
    if GatesLeaveAChoice(params.gates) && TiltSuffices(n, params, floor) {
      var a: real, b: real :| -1.0 < a < b && PassesGates(a, params.gates) && PassesGates(b, params.gates);
      TiltReorders(n, params, floor, a, b);
    }
    NoGatesLeaveAChoice();
  }

  lemma NoGatesLeaveAChoice()
    ensures GatesLeaveAChoice([])
  {
    assert PassesGates(0.0, []) && PassesGates(1.0, []);
  }

  // Reordering needs tilt

  lemma EligibleFacts(env: Env, index: nat, e: Eligible)
    requires WellFormed(env) && PositivePrices(env.panel) && index < |env.panel.dates|
    requires e in Eligibles(env.panel, env.symbols, index, env.params,
                            ClaimScores(ActiveGroups(env.signals, Ordinal(env.panel.dates[index]))))
    ensures e.momentum > -1.0 && PassesGates(e.momentum, env.params.gates)
    ensures e.support == Clamp(Claims.Net(Claims.Active(env.signals, Ordinal(env.panel.dates[index]), e.symbol)))
    ensures -1.0 <= e.support <= 1.0
    ensures env.params.requireClaimSupport ==> e.support > 0.0
  {
    hide Ordinal, PassesGates, ActiveGroups, ClaimScores, Clamp;
    var day := Ordinal(env.panel.dates[index]);
    EligiblesComeFromSymbols(env.panel, env.symbols, index, env.params, ClaimScores(ActiveGroups(env.signals, day)));
    SupportIsClampedNet(env.signals, day, e.symbol);
    var current, past := Bar(env.panel, e.symbol, index), Bar(env.panel, e.symbol, index - env.params.lookbackDays);
    RatioIsPositive(current.value, past.value);
  }

  lemma RatioIsPositive(x: real, y: real)
    requires x > 0.0 && y > 0.0
    ensures x / y > 0.0
  {
    assert (x / y) * y == x;
    Reals.StrictFactorSign(x / y, y);
  }

  lemma RestrictionIsPositive(panel: Panel, symbols: seq<Symbol>)
    requires PositivePrices(panel) && Uncovered(symbols, panel) == []
    ensures PositivePrices(Restricted(panel, symbols))
  {
    var narrow := Restricted(panel, symbols);
    forall s, i | Bar(narrow, s, i).Some? ensures Bar(narrow, s, i).value > 0.0 {
      assert Bar(narrow, s, i) == Bar(panel, s, i);
    }
  }

  lemma PreparedFacts(inputs: Inputs)
    requires ValidInputs(inputs) && Prepare(inputs).Ready? && PositivePrices(inputs.panel)
    ensures var env := Prepare(inputs).env;
            && PositivePrices(env.panel)
            && env.params == inputs.params.(topN := env.params.topN)
            && Normalize(inputs.signals, inputs.defaultHorizon, inputs.minConfidence, set s | s in env.symbols)
                 == Signals(env.signals)
  {
    hide Normalize, RebalanceSchedule, AuthorizedSymbols, Uncovered, Restricted, AscendingDates, PositivePrices;
    RestrictionIsPositive(inputs.panel, Prepare(inputs).env.symbols);
  }

  /** At a floor of one every kept claim is certain. */
  lemma {:induction false} FullFloorKeepsCertainties(raw: seq<WireSignal>, horizon: int, universe: set<Symbol>)
    requires Collect(raw, horizon, 1.0, universe).Signals?
    ensures forall s :: s in Collect(raw, horizon, 1.0, universe).signals ==> s.score == 1.0 || s.score == -1.0
  {
    if |raw| > 0 {
      FullFloorKeepsCertainties(raw[..|raw| - 1], horizon, universe);
    }
  }

  lemma {:induction false} LiveComesFrom(signals: seq<ClaimSignal>, day: int, symbol: Symbol)
    ensures forall s :: s in LiveFor(signals, day, symbol) ==> s in signals
  {
    if |signals| > 0 {
      LiveComesFrom(signals[..|signals| - 1], day, symbol);
    }
  }

  lemma {:induction false} CertaintiesNetToWholes(evidence: seq<Evidence>) returns (net: int)
    requires forall e :: e in evidence ==> e.contribution == 1.0 || e.contribution == -1.0
    ensures Claims.Net(evidence) == net as real
  {
    net := 0;
    if |evidence| > 0 {
      var last := evidence[|evidence| - 1];
      assert last in evidence;
      net := CertaintiesNetToWholes(evidence[..|evidence| - 1]);
      net := net + (if last.contribution == 1.0 then 1 else -1);
    }
  }

  lemma CertainSupport(signals: seq<ClaimSignal>, day: int, symbol: Symbol)
    requires forall s :: s in signals ==> s.score == 1.0 || s.score == -1.0
    ensures var support := Clamp(Claims.Net(Claims.Active(signals, day, symbol))); support > 0.0 ==> support == 1.0
  {
    LiveComesFrom(signals, day, symbol);
    hide LiveFor;
    var live, evidence := LiveFor(signals, day, symbol), Claims.Active(signals, day, symbol);
    forall e | e in evidence ensures e.contribution == 1.0 || e.contribution == -1.0 {
      var k :| 0 <= k < |evidence| && evidence[k] == e;
      assert live[k] in live;
    }
    hide EvidenceOf;
    var net := CertaintiesNetToWholes(evidence);
  }

  lemma NormalizedCertainties(raw: seq<WireSignal>, horizon: int, universe: set<Symbol>)
    requires Normalize(raw, horizon, 1.0, universe).Signals?
    ensures forall s :: s in Normalize(raw, horizon, 1.0, universe).signals ==> s.score == 1.0 || s.score == -1.0
  {
    FullFloorKeepsCertainties(raw, horizon, universe);
    hide Collect;
    var collected := Collect(raw, horizon, 1.0, universe).signals;
    Sorting.SortKeepsElements(collected, SignalLe);
    Sorting.SameMembers(collected, Sorting.Sort(collected, SignalLe));
  }

  /** So at a floor of one a positive support is full support. */
  lemma CertainSupportIsFull(inputs: Inputs, day: int, symbol: Symbol)
    requires ValidInputs(inputs) && Prepare(inputs).Ready? && PositivePrices(inputs.panel) && inputs.minConfidence
             == 1.0
    ensures var support := Clamp(Claims.Net(Claims.Active(Prepare(inputs).env.signals, day, symbol)));
            support > 0.0 ==> support == 1.0
  {
    hide Prepare, PositivePrices, AscendingDates, Normalize, Clamp, Claims.Active;
    PreparedFacts(inputs);
    var env := Prepare(inputs).env;
    NormalizedCertainties(inputs.signals, inputs.defaultHorizon, set s | s in env.symbols);
    CertainSupport(env.signals, day, symbol);
  }

  lemma ReorderingNeedsTilt(
      inputs: Inputs, index: nat, n: nat, params: Params, floor: real, low: Eligible, high: Eligible)
    requires ValidParams(params) && params.scale.RankScale? && n >= 2 && floor <= 1.0
    requires Reorders(inputs, index, n, params, floor, low, high)
    ensures GatesLeaveAChoice(params.gates) && TiltSuffices(n, params, floor)
  {
    PreparedIsWellFormed(inputs);
    PreparedFacts(inputs);
    var env, es := Prepare(inputs).env, CrossSection(inputs, index);
    var day := Ordinal(env.panel.dates[index]);
    hide Prepare, WellFormed, PassesGates, PositivePrices, Ordinal, Clamp, Overturns, Normalize, ScheduledExactly;
    hide Listed;
    assert low in es && high in es by {
      OverturnedAreListed(es, low, high, params);
    }
    EligibleFacts(env, index, low);
    EligibleFacts(env, index, high);
    if floor == 1.0 {
      CertainSupportIsFull(inputs, day, low.symbol);
      CertainSupportIsFull(inputs, day, high.symbol);
    }
    hide DecidesAmong, CrossSection;
    OverturnedAreListed(es, low, high, params);
    OverturningNeedsTilt(es, low, high, params, floor);
  }

  lemma OverturnedAreListed(es: seq<Eligible>, low: Eligible, high: Eligible, params: Params)
    requires Overturns(es, low, high, params)
    ensures low in es && high in es && low.momentum < high.momentum
  {
  }

  lemma OverturningNeedsTilt(es: seq<Eligible>, low: Eligible, high: Eligible, params: Params, floor: real)
    requires params.scale.RankScale? && |es| >= 2 && params.signalWeight >= 0.0 && floor <= 1.0
    requires Overturns(es, low, high, params)
    requires -1.0 <= high.support && low.support <= 1.0 && (params.requireClaimSupport ==> high.support > 0.0)
    requires params.requireClaimSupport && floor == 1.0 ==> high.support == 1.0
    ensures TiltSuffices(|es|, params, floor)
  {
    BeatingTakesTilt(es, low, high, params);
    hide Overturns;
    TiltIsLarge(params.signalWeight, low.support, high.support, (|es| - 1) as real, TiltSteps(|es|, params));
  }

  lemma BeatingTakesTilt(es: seq<Eligible>, low: Eligible, high: Eligible, params: Params)
    requires params.scale.RankScale? && |es| >= 2 && Overturns(es, low, high, params)
    ensures params.signalWeight * (low.support - high.support) >= 2.0 / (|es| - 1) as real
  {
    RanksOrderAsMomentum(es, low, high);
    hide RankOf;
    var weight := params.signalWeight;
    assert weight * (low.support - high.support) == weight * low.support - weight * high.support;
  }

  lemma TiltIsLarge(weight: real, low: real, high: real, d: real, steps: real)
    requires weight >= 0.0 && d > 0.0 && -1.0 <= high && low <= 1.0 && steps == weight * d
    requires weight * (low - high) >= 2.0 / d
    ensures steps >= 1.0
    ensures high > 0.0 ==> steps > 2.0
    ensures high < 1.0
  {
    var step, gap := 2.0 / d, low - high;
    assert step * d == 2.0;
    Reals.StrictFactorSign(step, d);
    assert weight * (2.0 - gap) >= 0.0;
    assert (2.0 * weight - step) * d >= 0.0;
    assert gap <= 0.0 ==> weight * gap <= 0.0;
    if high > 0.0 {
      TiltAboveTwo(weight, gap, step, d);
    }
  }

  lemma TiltAboveTwo(weight: real, gap: real, step: real, d: real)
    requires weight >= 0.0 && d > 0.0 && gap < 1.0 && step > 0.0 && step * d == 2.0 && weight * gap >= step
    ensures weight * d > 2.0
  {
    assert weight > 0.0;
    assert weight * (1.0 - gap) > 0.0;
    var spare := weight - step;
    assert weight * (1.0 - gap) == weight - weight * gap;
    Scaled(spare, d);
    var all, part := weight * d, step * d;
    assert spare * d == all - part;
    assert all > part;
  }

  lemma Scaled(x: real, k: real)
    requires x > 0.0 && k > 0.0
    ensures x * k > 0.0
  {
  }

  // Tilt enough reorders

  lemma RisesAscend(plan: Plan, i: int, j: int)
    requires plan.step > 0.0 && i < j
    ensures Rise(plan, i) < Rise(plan, j)
  {
    assert (j - i) as real * plan.step > 0.0;
  }

  lemma RungRanks(plan: Plan)
    requires plan.n >= 2 && plan.step > 0.0
    ensures RankOf(Rungs(plan), Rise(plan, 0)) == -1.0
    ensures RankOf(Rungs(plan), Rise(plan, 1)) == 2.0 / (plan.n - 1) as real - 1.0
  {
    var es, n: int := Rungs(plan), plan.n;
    forall i, j | 0 <= i < j < n ensures es[i].momentum < es[j].momentum {
      RisesAscend(plan, i, j);
    }
    hide Rise, Name, SupportAt;
    BlockCounts(es, 0, 1);
    BlockCounts(es, 1, 2);
    assert es[0].momentum == Rise(plan, 0) && es[1].momentum == Rise(plan, 1);
    hide Rungs, Below, Above;
    LowestQuotients(n);
  }

  lemma LowestQuotients(n: int)
    requires n >= 2
    ensures (-(n - 1)) as real / (n - 1) as real == -1.0
    ensures (3 - n) as real / (n - 1) as real == 2.0 / (n - 1) as real - 1.0
  {
    var d := (n - 1) as real;
    var q := 2.0 / d;
    assert (3 - n) as real == 2.0 - d && (-(n - 1)) as real == -d;
    assert q * d == 2.0;
    Reals.QuotientIs(2.0 - d, d, q - 1.0);
    Reals.QuotientIs(-d, d, -1.0);
  }

  lemma RungsOverturn(plan: Plan, params: Params)
    requires params.scale.RankScale? && plan.n >= 2 && plan.step > 0.0
    requires params.signalWeight * (1.0 - Clamp(plan.first + plan.second)) >= 2.0 / (plan.n - 1) as real
    ensures Overturns(Rungs(plan), Rungs(plan)[0], Rungs(plan)[1], params)
  {
    var es, weight, other := Rungs(plan), params.signalWeight, Clamp(plan.first + plan.second);
    RungRanks(plan);
    RisesAscend(plan, 0, 1);
    NamesAscend(0, 1);
    assert SupportAt(plan, 0) == 1.0 && SupportAt(plan, 1) == other;
    hide RankOf, Name, Rise, SupportAt, Clamp;
    assert weight * (1.0 - other) == weight * 1.0 - weight * other;
    assert es[0] in es && es[1] in es;
  }

  /** What the second claim of the other names scores: with a first of one, just enough support to stay eligible. */
  function SecondScore(n: nat, params: Params, floor: real): real
    requires n >= 2 && TiltSuffices(n, params, floor)
  {
    if params.requireClaimSupport then -Reals.Max(2.0 / TiltSteps(n, params), floor) else -1.0
  }

  function FirstScore(params: Params): real {
    if params.requireClaimSupport then 1.0 else -1.0
  }

  lemma ScoresReorder(n: nat, params: Params, floor: real)
    requires n >= 2 && TiltSuffices(n, params, floor) && params.signalWeight >= 0.0 && 0.0 <= floor <= 1.0
    ensures var first, second := FirstScore(params), SecondScore(n, params, floor);
            && ValidScore(first, floor) && ValidScore(second, floor)
            && (params.requireClaimSupport ==> first + second > 0.0)
            && params.signalWeight * (1.0 - Clamp(first + second)) >= 2.0 / (n - 1) as real
  {
    var weight, d, steps := params.signalWeight, (n - 1) as real, TiltSteps(n, params);
    var step := 2.0 / d;
    assert step * d == 2.0;
    if params.requireClaimSupport {
      var share := 2.0 / steps;
      assert share * steps == 2.0;
      ShareIsProper(share, steps);
      assert (weight * share) * d == share * steps;
      Reals.QuotientIs(2.0, d, weight * share);
      var size := Reals.Max(share, floor);
      assert weight * (size - share) >= 0.0;
      assert weight * size == weight * share + weight * (size - share);
      assert 1.0 - Clamp(1.0 - size) == size;
    } else {
      Reals.FactorSign(2.0 * weight - step, d) by {
        assert (2.0 * weight - step) * d == 2.0 * steps - 2.0;
      }
    }
  }

  lemma ShareIsProper(share: real, steps: real)
    requires steps > 2.0 && share * steps == 2.0
    ensures 0.0 < share < 1.0
  {
    Reals.StrictFactorSign(share, steps);
    Reals.StrictFactorSign(1.0 - share, steps) by {
      assert (1.0 - share) * steps == steps - 2.0;
    }
  }

  lemma GatesAreConvex(gates: seq<Gate>, a: real, b: real, x: real)
    requires PassesGates(a, gates) && PassesGates(b, gates) && a <= x <= b
    ensures PassesGates(x, gates)
  {
  }

  lemma RiseBounds(plan: Plan, b: real, i: nat)
    requires plan.n >= 2 && i < plan.n && plan.step * (plan.n - 1) as real == b - plan.a && plan.step > 0.0
    ensures plan.a <= Rise(plan, i) <= b
  {
    var step, left := plan.step, plan.n - 1 - i;
    assert i as real * step >= 0.0;
    assert left as real * step >= 0.0;
    assert left as real * step == (plan.n - 1) as real * step - i as real * step;
  }

  lemma TiltReorders(n: nat, params: Params, floor: real, a: real, b: real)
    requires ValidParams(params) && params.scale.RankScale? && n >= 2 && 0.0 <= floor <= 1.0
    requires TiltSuffices(n, params, floor)
    requires -1.0 < a < b && PassesGates(a, params.gates) && PassesGates(b, params.gates)
    ensures TiltCanReorder(n, params, floor)
  {
    hide PassesGates, TiltSuffices, FirstScore, SecondScore, ValidScore, Rise, Clamp, TiltCanReorder;
    var step := (b - a) / (n - 1) as real;
    StepIsPositive(b - a, (n - 1) as real);
    ScoresReorder(n, params, floor);
    var plan := Plan(n, a, step, 0, FirstScore(params), SecondScore(n, params, floor));
    forall i: int | 0 <= i < n ensures Rise(plan, i) > -1.0 && PassesGates(Rise(plan, i), params.gates) {
      RiseBounds(plan, b, i);
      GatesAreConvex(params.gates, a, b, Rise(plan, i));
    }
    PlanReorders(plan, params, floor);
  }

  lemma StepIsPositive(span: real, d: real)
    requires span > 0.0 && d > 0.0
    ensures (span / d) * d == span && span / d > 0.0
  {
    Reals.StrictFactorSign(span / d, d);
  }

  lemma PlanCrossSection(plan: Plan, params: Params, floor: real)
    requires ValidPlan(plan, params, floor)
    ensures var inputs := Request(plan, params, floor);
            && ValidInputs(inputs) && Prepare(inputs).Ready? && params.lookbackDays < |inputs.panel.dates|
            && CrossSection(inputs, params.lookbackDays) == Rungs(plan)
  {
    var inputs := Request(plan, params, floor);
    RequestIsReady(plan, params, floor);
    hide Prepare, Ordinal, ValidInputs, Wires, Columns, Pairs, Eligibles, Rungs, PassesGates, PositivePrices, NamesTo;
    var env := Prepare(inputs).env;
    assert Ordinal(env.panel.dates[params.lookbackDays]) == DecisionDay(plan, params);
    hide Dates, DecisionDay, AscendingDates, ClaimScores, ActiveGroups;
    AllRungsAreEligible(plan, env.params, DecisionDay(plan, params));
    hide ValidPlan, ValidParams, Request, Prices;
  }

  lemma AllRungsAreEligible(plan: Plan, params: Params, day: int)
    requires params.lookbackDays > 0
    requires forall i :: 0 <= i < plan.n ==> PassesGates(Rise(plan, i), params.gates)
    requires params.requireClaimSupport ==> plan.first + plan.second > 0.0
    ensures Eligibles(Prices(plan, params.lookbackDays), NamesTo(plan.n), params.lookbackDays, params,
                      ClaimScores(ActiveGroups(Pairs(plan, day, plan.n), day)))
              == Rungs(plan)
  {
    hide Eligibles, ClaimScores, ActiveGroups, PassesGates, Rungs, Prices, Pairs, Rise, NamesTo;
    RungsAreEligible(plan, params, day, plan.n);
    assert NamesTo(plan.n)[..plan.n] == NamesTo(plan.n) && Rungs(plan)[..plan.n] == Rungs(plan);
  }

  lemma PlanDecides(plan: Plan, params: Params, floor: real)
    requires ValidPlan(plan, params, floor)
    ensures DecidesAmong(Request(plan, params, floor), params.lookbackDays, plan.n, params, floor)
    ensures CrossSection(Request(plan, params, floor), params.lookbackDays) == Rungs(plan)
  {
    RequestIsReady(plan, params, floor);
    PlanCrossSection(plan, params, floor);
    hide ValidPlan, ValidInputs, Prepare, CrossSection, Rungs, Wires, Ordinal, Columns, PositivePrices, Pairs, Dates;
    hide NamesTo;
  }

  lemma PlanReorders(plan: Plan, params: Params, floor: real)
    requires ValidPlan(plan, params, floor) && params.scale.RankScale? && plan.n >= 2 && plan.step > 0.0
    requires params.signalWeight * (1.0 - Clamp(plan.first + plan.second)) >= 2.0 / (plan.n - 1) as real
    ensures TiltCanReorder(plan.n, params, floor)
  {
    hide DecidesAmong, Overturns, CrossSection, Request, Rungs, ValidPlan, Clamp;
    PlanDecides(plan, params, floor);
    RungsOverturn(plan, params);
    var es := Rungs(plan);
    assert Reorders(Request(plan, params, floor), params.lookbackDays, plan.n, params, floor, es[0], es[1]);
  }
}
