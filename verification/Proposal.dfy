/** The ranking a run proposes: which decision it comes from, what it says, and that the store will take it. */
module Proposal {
  import opened Calendar
  import opened Claims
  import opened ConstantWeights
  import opened Drift
  import opened Ledger
  import opened Market
  import opened Options
  import opened OrderQueue
  import opened Ranking
  import opened Selection
  import opened SelectionLaws
  import RunStore
  import Sorting
  import Reals
  import Solvency

  /** The ranking after filling `due`: that of the last rebalance in it. */
  function RankedBy(ranking: CandidateSet, due: seq<Order>): CandidateSet {
    if |due| == 0 then ranking
    else
      var last := due[|due| - 1];
      if last.Rebalance? then CandidatesOf(last.decision) else RankedBy(ranking, due[..|due| - 1])
  }

  lemma {:induction false} FillAllRanks(env: Env, t: nat, st: State, due: seq<Order>)
    requires t < |env.panel.dates|
    ensures FillAll(env, t, st, due).candidates == RankedBy(st.candidates, due)
  {
    if |due| > 0 {
      FillAllRanks(env, t, st, due[..|due| - 1]);
    }
  }

  lemma {:induction false} ExitsRankNothing(ranking: CandidateSet, due: seq<Order>)
    requires forall o :: o in due ==> o.StopExit?
    ensures RankedBy(ranking, due) == ranking
  {
    if |due| > 0 {
      assert due[|due| - 1] in due;
      ExitsRankNothing(ranking, due[..|due| - 1]);
    }
  }

  lemma IssuedRanks(env: Env, ranking: CandidateSet, i: nat)
    requires WellFormed(env) && i < |env.panel.dates|
    ensures RankedBy(ranking, Issued(env, i))
         == if i in env.rebalance then CandidatesOf(Decide(env, i).decision) else ranking
  {
    hide Mark, Run, NewExits, Decide, CandidatesOf, WellFormed;
    var st := Mark(env, i, Run(env, i));
    var exits := ExitOrders(NewExits(env, i, st, st.values), i + env.params.lag);
    if i !in env.rebalance {
      assert Issued(env, i) == exits;
      ExitsRankNothing(ranking, exits);
    }
  }

  ghost predicate InRange(env: Env, days: seq<nat>) {
    forall i :: i in days ==> i < |env.panel.dates|
  }

  /** The ranking of the last of these days' decisions. */
  function LastRanking(env: Env, days: seq<nat>): CandidateSet
    requires WellFormed(env) && InRange(env, days)
  {
    if |days| == 0 then INITIAL.candidates
    else
      assert days[|days| - 1] in days;
      CandidatesOf(Decide(env, days[|days| - 1]).decision)
  }

  lemma DayRanks(env: Env, t: nat)
    requires WellFormed(env) && t < |env.panel.dates|
    ensures Run(env, t + 1).candidates == RankedBy(Run(env, t).candidates, Due(env, t))
  {
    hide Issued, FillAll, CandidatesOf, RankedBy, Due;
    DayFillsDue(env, t);
    FillAllRanks(env, t, BeforeFills(env, t), Due(env, t));
    assert BeforeFills(env, t).candidates == Run(env, t).candidates;
  }

  /** A run proposes its last filled rebalance, as decided then; before the first fill it proposes nothing. */
  lemma {:induction false} ProposalIsTheLastFill(env: Env, n: nat)
    requires WellFormed(env) && Increasing(env.rebalance) && n <= |env.panel.dates|
    ensures Run(env, n).candidates == LastRanking(env, FilledDays(env.rebalance, env.params.lag, n))
  {
    hide Run, FilledDays, Decide, CandidatesOf, Issued, WellFormed, RankedBy;
    if n == 0 {
      NothingFilledAtFirst(env.rebalance, env.params.lag);
      RunStart(env);
    } else {
      ProposalIsTheLastFill(env, n - 1);
      DayRanks(env, n - 1);
      FilledDaysGrow(env.rebalance, env.params.lag, n - 1);
      if n - 1 >= env.params.lag {
        IssuedRanks(env, Run(env, n - 1).candidates, n - 1 - env.params.lag);
      } else {
        ExitsRankNothing(Run(env, n - 1).candidates, []);
      }
    }
  }

  /** The earlier accounting fills at the deciding bar, so it proposes its last scheduled decision. */
  lemma {:induction false} FrozenProposalIsTheLastDecision(env: Env, n: nat)
    requires WellFormed(env) && Increasing(env.rebalance) && n <= |env.panel.dates|
    ensures FrozenRun(env, n).candidates == LastRanking(env, FilledDays(env.rebalance, 0, n))
  {
    hide FrozenRun, FilledDays, Decide, CandidatesOf, WellFormed;
    if n == 0 {
      NothingFilledAtFirst(env.rebalance, 0);
      FrozenStart(env);
    } else {
      FrozenProposalIsTheLastDecision(env, n - 1);
      FrozenDayRanks(env, n - 1);
      FilledDaysGrow(env.rebalance, 0, n - 1);
    }
  }

  lemma FrozenDayRanks(env: Env, t: nat)
    requires WellFormed(env) && t < |env.panel.dates|
    ensures FrozenRun(env, t + 1).candidates
         == if t in env.rebalance then CandidatesOf(Decide(env, t).decision) else FrozenRun(env, t).candidates
  {
    FrozenRunStep(env, t);
    hide FrozenRun, Decide, CandidatesOf, WellFormed, WeightTurnover, Positive, TargetOf, Zeroed, CountStops, DayReturn;
  }

  /** The ranking either accounting reports after its first `n` days. */
  ghost predicate Proposes(env: Env, n: nat, ranking: CandidateSet)
    requires WellFormed(env) && n <= |env.panel.dates|
  {
    ranking == Run(env, n).candidates || ranking == FrozenRun(env, n).candidates
  }

  /** Every proposed ranking is empty or that of one scheduled decision. */
  lemma ProposalIsADecision(env: Env, n: nat, ranking: CandidateSet) returns (i: nat)
    requires WellFormed(env) && Increasing(env.rebalance) && n <= |env.panel.dates| && Proposes(env, n, ranking)
    ensures ranking != INITIAL.candidates ==>
              i in env.rebalance && i < n && ranking == CandidatesOf(Decide(env, i).decision)
  {
    hide Run, FrozenRun, FilledDays, Decide, CandidatesOf, WellFormed;
    ProposalIsTheLastFill(env, n);
    FrozenProposalIsTheLastDecision(env, n);
    var days := FilledDays(env.rebalance, if ranking == Run(env, n).candidates then env.params.lag else 0, n);
    i := if |days| > 0 then days[|days| - 1] else 0;
    assert |days| > 0 ==> i in days;
  }

  /** The return from one close of a column to a later one, where the first is positive. */
  ghost predicate Returned(panel: Panel, symbol: Symbol, before: int, index: int, momentum: real) {
    && symbol in panel.series
    && 0 <= before < |panel.series[symbol]| && 0 <= index < |panel.series[symbol]|
    && panel.series[symbol][before].Some? && panel.series[symbol][index].Some?
    && var past, current := panel.series[symbol][before].value, panel.series[symbol][index].value;
       past > 0.0 && (1.0 + momentum) * past == current
  }

  /**
   * What a position proposed on day `i` says of itself: its return from the closes, its score from its rank and
   * support, its support from its evidence, and that it was let in by the gates.
   */
  ghost predicate Accountable(env: Env, i: nat, c: Candidate)
    requires i < |env.panel.dates| && ValidDate(env.panel.dates[i])
  {
    var net := Claims.Net(c.evidence);
    && Returned(env.panel, c.symbol, i - env.params.lookbackDays, i, c.momentum)
    && GatesAdmit(c.momentum, env.params.gates)
    && (env.params.requireClaimSupport ==> c.claimSupport > 0.0)
    && c.score == c.momentumRank + env.params.signalWeight * c.claimSupport
    && c.claimSupport == (if net > 1.0 then 1.0 else if net < -1.0 then -1.0 else net)
    && c.evidence == Active(env.signals, Ordinal(env.panel.dates[i]), c.symbol)
    && (env.params.scale.RankScale? ==> -1.0 <= c.momentumRank <= 1.0)
    && (env.params.scale.ReturnScale? ==> c.momentumRank == c.momentum)
  }

  lemma QualifiedReturned(
      panel: Panel, symbol: Symbol, index: nat, params: Params, scores: map<Symbol, real>, e: Eligible)
    requires Qualify(panel, symbol, index, params, scores) == Some(e)
    ensures Returned(panel, symbol, index - params.lookbackDays, index, e.momentum)
    ensures GatesAdmit(e.momentum, params.gates)
    ensures e.support == SupportOf(scores, symbol) && (params.requireClaimSupport ==> e.support > 0.0)
  {
    GatesAreComparisons(e.momentum, params.gates);
    hide PassesGates, GatesAdmit;
    var past, current := Bar(panel, symbol, index - params.lookbackDays).value, Bar(panel, symbol, index).value;
    BarIsTheClose(panel, symbol, index - params.lookbackDays, past);
    BarIsTheClose(panel, symbol, index, current);
    assert (current / past) * past == current;
  }

  lemma EvidenceIsActive(env: Env, day: int, symbol: Symbol)
    ensures EvidenceFor(ActiveGroups(env.signals, day), symbol) == Active(env.signals, day, symbol)
    ensures SupportOf(ClaimScores(ActiveGroups(env.signals, day)), symbol)
         == Clamp(Claims.Net(EvidenceFor(ActiveGroups(env.signals, day), symbol)))
  {
    GroupsAreActive(env.signals, day, symbol);
    SupportIsClampedNet(env.signals, day, symbol);
  }

  lemma DecisionIsAccountable(env: Env, i: nat)
    requires WellFormed(env) && i < |env.panel.dates|
    ensures var ranked := CandidatesOf(Decide(env, i).decision);
            forall k :: 0 <= k < |ranked.positions| ==> Accountable(env, i, ranked.positions[k])
  {
    hide Choose, RankOf, ActiveGroups, Active, ClaimScores, SupportOf, Claims.Net, Ordinal, Qualify;
    var day := Ordinal(env.panel.dates[i]);
    var scores := ClaimScores(ActiveGroups(env.signals, day));
    var es := Eligibles(env.panel, env.symbols, i, env.params, scores);
    EligiblesComeFromSymbols(env.panel, env.symbols, i, env.params, scores);
    var ps := Choose(es, env.params);
    hide AscendingDates;
    var ranked := CandidatesOf(Decide(env, i).decision);
    forall k | 0 <= k < |ranked.positions| ensures Accountable(env, i, ranked.positions[k]) {
      var e := ChosenFrom(es, env.params, k);
      QualifiedReturned(env.panel, e.symbol, i, env.params, scores, e);
      hide Returned, GatesAdmit;
      EvidenceIsActive(env, day, ps[k].symbol);
      RankIsBounded(es, e);
      var c := ranked.positions[k];
      assert c.claimSupport == Clamp(Claims.Net(c.evidence));
    }
  }

  lemma RankIsBounded(es: seq<Eligible>, e: Eligible)
    requires e in es
    ensures -1.0 <= RankOf(es, e.momentum) <= 1.0
  {
    if |es| >= 2 {
      RanksOrderAsMomentum(es, e, e);
    }
  }

  /**
   * Every position a run proposes, under either accounting, can be re-derived from the closes and from what is reported
   * with it.
   */
  lemma ProposalIsAccountable(env: Env, n: nat, ranking: CandidateSet) returns (i: nat)
    requires WellFormed(env) && Increasing(env.rebalance) && n <= |env.panel.dates| && Proposes(env, n, ranking)
    ensures ranking.positions != [] ==>
              && i in env.rebalance && i < n && ranking.asOf == Some(env.panel.dates[i])
              && (forall k :: 0 <= k < |ranking.positions| ==> ranking.positions[k].rank == k + 1)
              && forall c :: c in ranking.positions ==> Accountable(env, i, c)
  {
    i := ProposalIsADecision(env, n, ranking);
    hide Proposes, Decide, Accountable, Ordinal;
    if ranking != INITIAL.candidates {
      DecisionIsAccountable(env, i);
    }
  }

  lemma {:induction false} EligiblesAreFew(
      panel: Panel, symbols: seq<Symbol>, index: nat, params: Params, scores: map<Symbol, real>)
    ensures |Eligibles(panel, symbols, index, params, scores)| <= |symbols|
  {
    if |symbols| > 0 {
      EligiblesAreFew(panel, symbols[..|symbols| - 1], index, params, scores);
    }
  }

  /** Every proposed weight is the capped equal share, and no more names are proposed than the universe has. */
  lemma DecisionWeights(env: Env, i: nat)
    requires WellFormed(env) && i < |env.panel.dates|
    ensures var ps := CandidatesOf(Decide(env, i).decision).positions;
            && |ps| <= |env.symbols|
            && forall c :: c in ps ==> c.weight == Share(|ps|, env.params.maxWeight)
  {
    hide ActiveGroups, ClaimScores, Choose, Share, Ordinal, LongOnly, TargetOf, Sum, Invested;
    var scores := ClaimScores(ActiveGroups(env.signals, Ordinal(env.panel.dates[i])));
    var es := Eligibles(env.panel, env.symbols, i, env.params, scores);
    hide AscendingDates;
    EligiblesComeFromSymbols(env.panel, env.symbols, i, env.params, scores);
    EligiblesAreFew(env.panel, env.symbols, i, env.params, scores);
    TargetIsLongOnly(es, env.params);
    hide Eligibles;
    var chosen, ps := Choose(es, env.params), CandidatesOf(Decide(env, i).decision).positions;
    forall c | c in ps ensures c.weight == Share(|ps|, env.params.maxWeight) {
      var k :| 0 <= k < |ps| && ps[k] == c;
      assert chosen[k] in chosen;
    }
  }

  /** What a decision proposes passes every check of the store. */
  lemma DecisionIsAcceptable(env: Env, i: nat)
    requires WellFormed(env) && i < |env.panel.dates| && "" !in env.symbols
    ensures var ranked := CandidatesOf(Decide(env, i).decision);
            RunStore.Committable(ranked) && forall c :: c in ranked.positions ==> c.symbol in env.symbols
  {
    Solvency.DecisionsAreSound(env, i);
    var decided := Decide(env, i);
    var ranked := CandidatesOf(decided.decision);
    hide Decide, WellFormed, Sum;
    forall k | 0 <= k < |ranked.positions|
      ensures RunStore.PositionFault(ranked, k).None? && ranked.positions[k].symbol == decided.weights[k].symbol
      ensures ranked.positions[k].symbol in env.symbols
    {
      assert decided.weights[k] in decided.weights;
    }
  }

  // What the service returns

  function RoundHalfEven(x: real): int {
    var below := x.Floor;
    var rest := x - below as real;
    if rest < 0.5 || (rest == 0.5 && below % 2 == 0) then below else below + 1
  }

  /** Rounded to eight decimals. */
  function Round8(x: real): real {
    RoundHalfEven(x * 100000000.0) as real / 100000000.0
  }

  /** Rounding gives the nearest multiple of the eighth decimal, and of two equally near the even one. */
  lemma RoundingIsNearest(x: real)
    ensures var units := RoundHalfEven(x * 100000000.0);
            && Round8(x) * 100000000.0 == units as real
            && -0.000000005 <= Round8(x) - x <= 0.000000005
            && (Round8(x) - x == 0.000000005 || x - Round8(x) == 0.000000005 ==> units % 2 == 0)
  {
  }

  /** Equal to eight decimals: as near as rounding to them leaves a number. */
  ghost predicate Near(a: real, b: real) {
    -0.000000005 <= a - b <= 0.000000005
  }

  /** What leaves the engine is the ranking itself: each number within half a unit of the eighth decimal of its own. */
  lemma RoundingMovesLittle(ranking: CandidateSet, k: nat)
    requires k < |ranking.positions|
    ensures |Rounded(ranking).positions| == |ranking.positions| && Rounded(ranking).asOf == ranking.asOf
    ensures var was, now := ranking.positions[k], Rounded(ranking).positions[k];
            && now.symbol == was.symbol && now.rank == was.rank
            && Near(now.weight, was.weight) && Near(now.score, was.score) && Near(now.momentum, was.momentum)
            && Near(now.momentumRank, was.momentumRank) && Near(now.claimSupport, was.claimSupport)
            && |now.evidence| == |was.evidence|
            && forall m :: 0 <= m < |was.evidence| ==>
                 && now.evidence[m].claimId == was.evidence[m].claimId
                 && Near(now.evidence[m].contribution, was.evidence[m].contribution)
  {
    var was := ranking.positions[k];
    RoundedIsNear(was.weight);
    RoundedIsNear(was.score);
    RoundedIsNear(was.momentum);
    RoundedIsNear(was.momentumRank);
    RoundedIsNear(was.claimSupport);
    forall m | 0 <= m < |was.evidence|
      ensures Near(Round8(was.evidence[m].contribution), was.evidence[m].contribution)
    {
      RoundedIsNear(was.evidence[m].contribution);
    }
    hide Round8, Near;
  }

  lemma RoundedIsNear(x: real)
    ensures Near(Round8(x), x)
  {
    RoundingIsNearest(x);
  }

  /** A positive number survives rounding exactly when it exceeds half a unit of the eighth decimal. */
  lemma RoundingKeepsPositive(x: real)
    requires x > 0.0
    ensures Round8(x) > 0.0 <==> x > 0.000000005
  {
    assert (x * 100000000.0).Floor >= 0;
  }

  function RoundedEvidence(evidence: seq<Evidence>): (rounded: seq<Evidence>)
    ensures |rounded| == |evidence|
  {
    seq(|evidence|, k requires 0 <= k < |evidence| => evidence[k].(contribution := Round8(evidence[k].contribution)))
  }

  function RoundedCandidate(c: Candidate): Candidate {
    Candidate(c.symbol, c.rank, Round8(c.weight), Round8(c.score), Round8(c.momentum), Round8(c.momentumRank),
              Round8(c.claimSupport), RoundedEvidence(c.evidence))
  }

  /** The ranking as it leaves the engine. */
  function Rounded(ranking: CandidateSet): (rounded: CandidateSet)
    ensures |rounded.positions| == |ranking.positions|
  {
    var ps := ranking.positions;
    CandidateSet(ranking.asOf, seq(|ps|, k requires 0 <= k < |ps| => RoundedCandidate(ps[k])))
  }

  /** Rounding can only lose weights: an acceptable ranking stays so exactly when no weight rounds to zero. */
  lemma RoundedIsAcceptable(ranking: CandidateSet)
    requires RunStore.Acceptable(ranking)
    ensures RunStore.SymbolsOf(Rounded(ranking)) == RunStore.SymbolsOf(ranking)
    ensures RunStore.Acceptable(Rounded(ranking)) <==> forall c :: c in ranking.positions ==> c.weight > 0.000000005
  {
    var rounded := Rounded(ranking);
    hide Round8, RoundedEvidence;
    forall k | 0 <= k < |ranking.positions|
      ensures RunStore.PositionFault(rounded, k).None? <==> ranking.positions[k].weight > 0.000000005
    {
      assert RunStore.PositionFault(ranking, k).None?;
      RoundingKeepsPositive(ranking.positions[k].weight);
    }
    assert forall k :: 0 <= k < |ranking.positions| ==> ranking.positions[k] in ranking.positions;
    hide RunStore.PositionFault, Rounded;
  }

  const SMALLEST_WEIGHT := 0.000000005
  const MOST_NAMES := 200000000

  /** The capped equal share survives rounding exactly for a cap above 5e-9 and fewer than 2e8 names. */
  lemma ShareSurvives(count: nat, maxWeight: real)
    requires count > 0
    ensures Share(count, maxWeight) > SMALLEST_WEIGHT <==> maxWeight > SMALLEST_WEIGHT && count < MOST_NAMES
  {
    var n := count as real;
    assert (1.0 / n) * n == 1.0;
    Reals.ReciprocalAbove(SMALLEST_WEIGHT, n, 1.0 / n);
  }

  /** When the store takes a ranking of equal weights, seen before it is rounded. */
  predicate Storable(count: nat, maxWeight: real) {
    count == 0 || (maxWeight > SMALLEST_WEIGHT && count < MOST_NAMES)
  }

  lemma DecisionIsStorable(env: Env, i: nat)
    requires WellFormed(env) && i < |env.panel.dates| && "" !in env.symbols
    ensures var ranking := CandidatesOf(Decide(env, i).decision);
            && (RunStore.Committable(Rounded(ranking)) <==> Storable(|ranking.positions|, env.params.maxWeight))
            && |ranking.positions| <= |env.symbols|
            && RunStore.Missing(RunStore.SymbolsOf(Rounded(ranking)), env.symbols) == []
  {
    hide WellFormed, Decide, CandidatesOf, Rounded, RunStore.Acceptable, RunStore.Missing, Share;
    DecisionIsAcceptable(env, i);
    DecisionWeights(env, i);
    var ranking := CandidatesOf(Decide(env, i).decision);
    RoundedIsAcceptable(ranking);
    var ps := ranking.positions;
    if |ps| > 0 {
      ShareSurvives(|ps|, env.params.maxWeight);
      assert ps[0] in ps;
    }
    var symbols := RunStore.SymbolsOf(ranking);
    forall s | s in symbols ensures s in env.symbols {
      var k :| 0 <= k < |symbols| && symbols[k] == s;
      assert ps[k] in ps;
    }
    RunStore.CoveredMissesNothing(symbols, env.symbols);
  }

  lemma NothingIsStorable(symbols: seq<Symbol>)
    ensures RunStore.Committable(Rounded(INITIAL.candidates))
    ensures RunStore.Missing(RunStore.SymbolsOf(Rounded(INITIAL.candidates)), symbols) == []
  {
  }

  /**
   * The engine meets the store's contract: at any point of any run under either accounting the ranking it returns names
   * no symbol outside the universe, and an in-progress run takes it if and only if it is empty, or the cap exceeds 5e-9
   * and fewer than 2e8 names are held.
   */
  lemma EngineOutputIsAccepted(
      env: Env, n: nat, ranking: CandidateSet, book: RunStore.Book, result: RunStore.BacktestResult, key: string)
    requires WellFormed(env) && Increasing(env.rebalance) && n <= |env.panel.dates| && "" !in env.symbols
    requires Proposes(env, n, ranking) && result.candidates == Rounded(ranking) && RunStore.InProgress(book.row)
    ensures RunStore.Missing(RunStore.SymbolsOf(result.candidates), env.symbols) == []
    ensures |ranking.positions| <= |env.symbols|
    ensures RunStore.Committed(book, result, key).Some? <==> Storable(|ranking.positions|, env.params.maxWeight)
  {
    var i := ProposalIsADecision(env, n, ranking);
    hide Proposes, Decide, WellFormed, RunStore.Missing, CandidatesOf, Rounded, RunStore.Committable;
    if ranking == INITIAL.candidates {
      NothingIsStorable(env.symbols);
    } else {
      DecisionIsStorable(env, i);
    }
  }
}
