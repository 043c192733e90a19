/** Choosing the names to hold: eligibility, the tilted score, the top of the ranking and its weights. */
module Selection {
  import opened Claims
  import opened Ledger
  import opened Market
  import opened Options
  import opened Ranking
  import Reals
  import Sorting
  import Text

  /** One selected name with the inputs that selected it. */
  datatype Position = Position(
    symbol: Symbol, weight: real, score: real, momentum: real, momentumRank: real, claimSupport: real)

  datatype Scored = Scored(symbol: Symbol, score: real, momentum: real, momentumRank: real, support: real)

  predicate PassesGates(momentum: real, gates: seq<Gate>) {
    forall g :: g in gates ==>
      && (g.operator == "gt" ==> momentum > g.threshold)
      && (g.operator == "gte" ==> momentum >= g.threshold)
      && (g.operator == "lt" ==> momentum < g.threshold)
      && (g.operator == "lte" ==> momentum <= g.threshold)
  }

  /** A symbol's entry in the cross-section of a bar, when it has one. */
  function Qualify(
      panel: Panel, symbol: Symbol, index: nat, params: Params, scores: map<Symbol, real>): Option<Eligible> {
    var current := Bar(panel, symbol, index);
    var past := Bar(panel, symbol, index - params.lookbackDays);
    if current.None? || past.None? || past.value <= 0.0 then None
    else
      var momentum := current.value / past.value - 1.0;
      var support := SupportOf(scores, symbol);
      if !PassesGates(momentum, params.gates) then None
      else if params.requireClaimSupport && support <= 0.0 then None
      else Some(Eligible(symbol, momentum, support))
  }

  function Eligibles(panel: Panel, symbols: seq<Symbol>, index: nat, params: Params, scores: map<Symbol, real>)
    : seq<Eligible>
  {
    if |symbols| == 0 then []
    else
      var before := Eligibles(panel, symbols[..|symbols| - 1], index, params, scores);
      var last := Qualify(panel, symbols[|symbols| - 1], index, params, scores);
      if last.Some? then before + [last.value] else before
  }

  function Rank(es: seq<Eligible>, e: Eligible, params: Params): real {
    if params.scale.RankScale? then RankOf(es, e.momentum) else e.momentum
  }

  function ScoreOne(es: seq<Eligible>, e: Eligible, params: Params): Scored {
    var rank := Rank(es, e, params);
    Scored(e.symbol, rank + params.signalWeight * e.support, e.momentum, rank, e.support)
  }

  function ScoreAll(es: seq<Eligible>, params: Params): (scored: seq<Scored>)
    ensures |scored| == |es|
  {
    seq(|es|, i requires 0 <= i < |es| => ScoreOne(es, es[i], params))
  }

  /** Score descending, then symbol. */
  predicate ScoredLe(a: Scored, b: Scored) {
    a.score > b.score || (a.score == b.score && (a.symbol == b.symbol || Text.Less(a.symbol, b.symbol)))
  }

  predicate Beats(a: Scored, b: Scored) {
    a.score > b.score || (a.score == b.score && Text.Less(a.symbol, b.symbol))
  }

  function Ceiling(x: real): int {
    -((-x).Floor)
  }

  /** How many names full investment takes under the cap, with the guard against float noise. */
  function Needed(maxWeight: real): int
    requires maxWeight > 0.0
  {
    Ceiling(1.0 / maxWeight - 0.000000001)
  }

  function MinInt(a: int, b: int): int {
    if b < a then b else a
  }

  function MaxInt(a: int, b: int): int {
    if b > a then b else a
  }

  function PositionCount(eligible: nat, params: Params): (count: nat)
    requires ValidParams(params)
    ensures count <= eligible
    ensures eligible > 0 ==> count > 0
  {
    var count := MinInt(eligible, params.topN);
    if !params.cashPolicy.Extend? || count == 0 then count
    else MinInt(eligible, MaxInt(count, Needed(params.maxWeight)))
  }

  function Ordered(es: seq<Eligible>, params: Params): seq<Scored> {
    Sorting.Sort(ScoreAll(es, params), ScoredLe)
  }

  function Weigh(chosen: seq<Scored>, maxWeight: real): (positions: seq<Position>)
    ensures |positions| == |chosen|
  {
    var n := |chosen|;
    seq(n, i requires 0 <= i < n =>
      var c := chosen[i];
      Position(c.symbol, Reals.Min(1.0 / n as real, maxWeight), c.score, c.momentum, c.momentumRank, c.support))
  }

  /** The top of the ranked cross-section. */
  function Choose(es: seq<Eligible>, params: Params): seq<Position>
    requires ValidParams(params)
  {
    Sorting.SortKeepsElements(ScoreAll(es, params), ScoredLe);
    Weigh(Ordered(es, params)[..PositionCount(|es|, params)], params.maxWeight)
  }

  function Selected(panel: Panel, symbols: seq<Symbol>, index: nat, params: Params, scores: map<Symbol, real>)
    : seq<Position>
    requires ValidParams(params)
  {
    Choose(Eligibles(panel, symbols, index, params, scores), params)
  }

  function TargetOf(positions: seq<Position>): (target: seq<Entry>)
    ensures |target| == |positions|
  {
    seq(|positions|, i requires 0 <= i < |positions| => Entry(positions[i].symbol, positions[i].weight))
  }

  ghost predicate DistinctUniverse(symbols: seq<Symbol>) {
    Sorting.Distinct(symbols)
  }

  lemma {:induction false} EligiblesComeFromSymbols(
      panel: Panel, symbols: seq<Symbol>, index: nat, params: Params, scores: map<Symbol, real>)
    requires DistinctUniverse(symbols)
    ensures DistinctNames(Eligibles(panel, symbols, index, params, scores))
    ensures forall e :: e in Eligibles(panel, symbols, index, params, scores) <==>
              e.symbol in symbols && Qualify(panel, e.symbol, index, params, scores) == Some(e)
  {
    if |symbols| > 0 {
      var front, s := symbols[..|symbols| - 1], symbols[|symbols| - 1];
      EligiblesComeFromSymbols(panel, front, index, params, scores);
      assert forall x :: x in symbols <==> x in front || x == s;
      assert s !in front;
      var before := Eligibles(panel, front, index, params, scores);
      forall k | 0 <= k < |before| ensures before[k].symbol != s {
        assert before[k] in before;
      }
    }
  }

  method Select(panel: Panel, symbols: seq<Symbol>, index: nat, params: Params, scores: map<Symbol, real>)
    returns (positions: seq<Position>)
    requires ValidParams(params) && DistinctUniverse(symbols)
    ensures positions == Selected(panel, symbols, index, params, scores)
  {
    var eligible: seq<Eligible> := [];
    for k := 0 to |symbols|
      invariant eligible == Eligibles(panel, symbols[..k], index, params, scores)
    {
      assert symbols[..k + 1][..k] == symbols[..k];
      var current := Bar(panel, symbols[k], index);
      var past := if index - params.lookbackDays >= 0 then Bar(panel, symbols[k], index - params.lookbackDays)
          else None;
      if current.None? || past.None? || past.value <= 0.0 {
        continue;
      }
      var momentum := current.value / past.value - 1.0;
      if !PassesGates(momentum, params.gates) {
        continue;
      }
      var support := SupportOf(scores, symbols[k]);
      if params.requireClaimSupport && support <= 0.0 {
        continue;
      }
      eligible := eligible + [Eligible(symbols[k], momentum, support)];
    }
    assert symbols[..|symbols|] == symbols;
    EligiblesComeFromSymbols(panel, symbols, index, params, scores);
    Sorting.SortKeepsElements(ScoreAll(eligible, params), ScoredLe);
    if |eligible| == 0 {
      return [];
    }
    positions := RankAndCut(eligible, params);
  }

  method RankAndCut(eligible: seq<Eligible>, params: Params) returns (positions: seq<Position>)
    requires ValidParams(params) && DistinctNames(eligible) && |eligible| > 0
    ensures positions == Choose(eligible, params)
  {
    hide Sorting.Sort, RankOf, PositionCount;
    var scored: seq<Scored> := [];
    var ranks: map<Symbol, real> := map[];
    if params.scale.RankScale? {
      ranks := MomentumRanks(eligible);
    }
    for k := 0 to |eligible|
      invariant scored == ScoreAll(eligible, params)[..k]
    {
      var e := eligible[k];
      assert e in eligible;
      var rank := if params.scale.RankScale? then ranks[e.symbol] else e.momentum;
      assert rank == Rank(eligible, e, params);
      scored := scored + [Scored(e.symbol, rank + params.signalWeight * e.support, e.momentum, rank, e.support)];
      assert ScoreAll(eligible, params)[k] == ScoreOne(eligible, e, params) == scored[k];
    }
    assert scored == ScoreAll(eligible, params);
    Sorting.SortKeepsElements(scored, ScoredLe);
    scored := Sorting.Sort(scored, ScoredLe);
    var chosen := scored[..PositionCount(|scored|, params)];
    var weight := Reals.Min(1.0 / |chosen| as real, params.maxWeight);
    positions := [];
    for k := 0 to |chosen|
      invariant positions == Weigh(chosen, params.maxWeight)[..k]
    {
      var c := chosen[k];
      positions := positions + [Position(c.symbol, weight, c.score, c.momentum, c.momentumRank, c.support)];
    }
  }
}
