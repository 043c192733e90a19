/** What the selection promises: a correct and monotone top of the ranking, and a filled book. */
module SelectionLaws {
  import opened Claims
  import opened Ledger
  import opened Market
  import opened Options
  import opened Ranking
  import opened Selection
  import Reals
  import Sorting
  import Text

  // The ranking

  lemma ScoredLeIsTotal()
    ensures Sorting.TotalPreorder(ScoredLe)
  {
    Text.LessIsStrictTotalOrder();
  }

  ghost predicate StrictlyRanked(scored: seq<Scored>) {
    && (forall i, j :: 0 <= i < j < |scored| ==> scored[i].symbol != scored[j].symbol)
    && (forall i, j :: 0 <= i < |scored| && 0 <= j < |scored| ==> (Beats(scored[i], scored[j]) <==> i < j))
  }

  lemma OrderedIsStrict(es: seq<Eligible>, params: Params)
    requires DistinctNames(es)
    ensures multiset(Ordered(es, params)) == multiset(ScoreAll(es, params)) && |Ordered(es, params)| == |es|
    ensures StrictlyRanked(Ordered(es, params))
  {
    var scored, ordered := ScoreAll(es, params), Ordered(es, params);
    ScoredLeIsTotal();
    Sorting.SortKeepsElements(scored, ScoredLe);
    Sorting.SortIsSorted(scored, ScoredLe);
    Sorting.DistinctKeysForgetOrder(scored, ordered, (s: Scored) => s.symbol);
    SortedIsStrict(ordered);
  }

  lemma SortedIsStrict(ordered: seq<Scored>)
    requires Sorting.Sorted(ordered, ScoredLe)
    requires forall i, j :: 0 <= i < j < |ordered| ==> ordered[i].symbol != ordered[j].symbol
    ensures StrictlyRanked(ordered)
  {
    hide Beats, ScoredLe;
    forall i, j | 0 <= i < |ordered| && 0 <= j < |ordered| ensures Beats(ordered[i], ordered[j]) <==> i < j {
      NothingBeatsItself(ordered[i]);
      if i < j {
        BeatsOneWay(ordered[i], ordered[j]);
      } else if j < i {
        BeatsOneWay(ordered[j], ordered[i]);
      }
    }
  }

  lemma NothingBeatsItself(a: Scored)
    ensures !Beats(a, a)
  {
    Text.LessIrreflexive(a.symbol);
  }

  lemma BeatsOneWay(a: Scored, b: Scored)
    requires a.symbol != b.symbol && ScoredLe(a, b)
    ensures Beats(a, b) && !Beats(b, a)
  {
    Text.LessAsymmetric(a.symbol, b.symbol);
  }

  /** A name's place in the ranking is the number of names that beat it. */
  lemma PlaceIsBeatCount(es: seq<Eligible>, params: Params, i: nat)
    requires DistinctNames(es) && i < |Ordered(es, params)|
    ensures var s := Ordered(es, params)[i]; i == Sorting.Count(ScoreAll(es, params), (y: Scored) => Beats(y, s))
  {
    OrderedIsStrict(es, params);
    var ordered := Ordered(es, params);
    var s := ordered[i];
    Sorting.CountPrefix(ordered, i, (y: Scored) => Beats(y, s));
    Sorting.CountForgetsOrder(ordered, ScoreAll(es, params), (y: Scored) => Beats(y, s));
  }

  /** A position restates one eligible name's score. */
  predicate Restates(p: Position, s: Scored) {
    p.symbol == s.symbol && p.score == s.score && p.momentum == s.momentum &&
    p.momentumRank == s.momentumRank && p.claimSupport == s.support
  }

  lemma ChosenBeatTheRest(es: seq<Eligible>, params: Params)
    requires ValidParams(params) && DistinctNames(es)
    ensures var ps := Choose(es, params);
            && |ps| == PositionCount(|es|, params)
            && (forall i :: 0 <= i < |ps| ==> exists e :: e in es && Restates(ps[i], ScoreOne(es, e, params)))
            && (forall i, j :: 0 <= i < j < |ps| ==> ps[i].symbol != ps[j].symbol)
            && (forall i, e, f :: 0 <= i < |ps| && e in es && f in es
                  && Restates(ps[i], ScoreOne(es, e, params)) && (forall p :: p in ps ==> p.symbol != f.symbol)
                  ==> Beats(ScoreOne(es, e, params), ScoreOne(es, f, params)))
  {
    ChosenRestate(es, params);
    forall i, e, f | 0 <= i < |Choose(es, params)| && e in es && f in es
        && Restates(Choose(es, params)[i], ScoreOne(es, e, params))
          && (forall p :: p in Choose(es, params) ==> p.symbol != f.symbol)
      ensures Beats(ScoreOne(es, e, params), ScoreOne(es, f, params))
    {
      ChosenBeat(es, params, i, e, f);
    }
  }

  lemma ChosenRestate(es: seq<Eligible>, params: Params)
    requires ValidParams(params) && DistinctNames(es)
    ensures var ps := Choose(es, params);
            && |ps| == PositionCount(|es|, params) && |ps| <= |Ordered(es, params)|
            && (forall i :: 0 <= i < |ps| ==> Restates(ps[i], Ordered(es, params)[i]))
            && (forall i :: 0 <= i < |ps| ==> exists e :: e in es && Restates(ps[i], ScoreOne(es, e, params)))
            && (forall i, j :: 0 <= i < j < |ps| ==> ps[i].symbol != ps[j].symbol)
  {
    OrderedIsStrict(es, params);
    var ps, ordered, scored := Choose(es, params), Ordered(es, params), ScoreAll(es, params);
    Sorting.SameMembers(ordered, scored);
    hide Ordered, Beats, ScoreOne, PositionCount;
    forall i | 0 <= i < |ps| ensures exists e :: e in es && Restates(ps[i], ScoreOne(es, e, params)) {
      assert ordered[i] in scored;
      var k :| 0 <= k < |scored| && scored[k] == ordered[i];
      assert es[k] in es && Restates(ps[i], ScoreOne(es, es[k], params));
    }
  }

  lemma ChosenFrom(es: seq<Eligible>, params: Params, k: nat) returns (e: Eligible)
    requires ValidParams(params) && DistinctNames(es) && k < |Choose(es, params)|
    ensures e in es && Restates(Choose(es, params)[k], ScoreOne(es, e, params))
  {
    ChosenRestate(es, params);
    hide Choose, ScoreOne, Restates;
    var p := Choose(es, params)[k];
    e :| e in es && Restates(p, ScoreOne(es, e, params));
  }

  lemma ChosenBeat(es: seq<Eligible>, params: Params, i: nat, e: Eligible, f: Eligible)
    requires ValidParams(params) && DistinctNames(es) && i < |Choose(es, params)| && e in es && f in es
    requires Restates(Choose(es, params)[i], ScoreOne(es, e, params))
    requires forall p :: p in Choose(es, params) ==> p.symbol != f.symbol
    ensures Beats(ScoreOne(es, e, params), ScoreOne(es, f, params))
  {
    OrderedIsStrict(es, params);
    ChosenRestate(es, params);
    var ps, ordered, scored := Choose(es, params), Ordered(es, params), ScoreAll(es, params);
    assert ScoreOne(es, f, params).symbol == f.symbol;
    hide Ordered, Choose, ScoreOne, Beats;
    Sorting.SameMembers(ordered, scored);
    var k :| 0 <= k < |es| && es[k] == f;
    assert scored[k] in ordered;
    var j :| 0 <= j < |ordered| && ordered[j] == scored[k];
    assert forall m :: 0 <= m < |ps| ==> ps[m] in ps && ps[m].symbol != f.symbol;
    assert j >= |ps|;
    assert Beats(ordered[i], ordered[j]);
    SameScore(ps[i], ordered[i], ScoreOne(es, e, params), ordered[j]);
  }

  lemma SameScore(p: Position, a: Scored, b: Scored, c: Scored)
    requires Restates(p, a) && Restates(p, b) && Beats(a, c)
    ensures Beats(b, c)
  {
  }

  /** A name's score: its momentum, or the rank of it, plus the weighted support. */
  ghost predicate Tilted(es: seq<Eligible>, e: Eligible, params: Params, score: real) {
    && (params.scale.RankScale? ==> score == RankOf(es, e.momentum) + params.signalWeight * e.support)
    && (params.scale.ReturnScale? ==> score == e.momentum + params.signalWeight * e.support)
  }

  ghost predicate IsFor(p: Position, e: Eligible) {
    p.symbol == e.symbol && p.momentum == e.momentum && p.claimSupport == e.support
  }

  /** Higher score first, and of equal scores the earlier symbol. */
  ghost predicate Outranks(score: real, symbol: Symbol, otherScore: real, other: Symbol) {
    otherScore < score || (score == otherScore && Text.Less(symbol, other))
  }

  /** The chosen names are eligible, listed best first, and each outranks every name left out. */
  lemma ChosenAreTheBest(es: seq<Eligible>, params: Params)
    requires ValidParams(params) && DistinctNames(es)
    ensures var ps := Choose(es, params);
            && (forall p :: p in ps ==> exists e :: e in es && IsFor(p, e) && Tilted(es, e, params, p.score))
            && (forall i, j :: 0 <= i < j < |ps| ==>
                  Outranks(ps[i].score, ps[i].symbol, ps[j].score, ps[j].symbol))
            && (forall p, f, score :: p in ps && f in es && Tilted(es, f, params, score)
                  && (forall q :: q in ps ==> q.symbol != f.symbol)
                  ==> Outranks(p.score, p.symbol, score, f.symbol))
  {
    var ps := Choose(es, params);
    ChosenAreOrdered(es, params);
    hide Choose, Beats, Restates, ScoreOne, RankOf;
    forall p | p in ps ensures exists e :: e in es && IsFor(p, e) && Tilted(es, e, params, p.score) {
      var i :| 0 <= i < |ps| && ps[i] == p;
      var e := ChosenFrom(es, params, i);
      RestatesTilted(es, e, params, p);
    }
    forall p, f, score | p in ps && f in es && Tilted(es, f, params, score)
        && (forall q :: q in ps ==> q.symbol != f.symbol)
      ensures Outranks(p.score, p.symbol, score, f.symbol)
    {
      var i :| 0 <= i < |ps| && ps[i] == p;
      var e := ChosenFrom(es, params, i);
      ChosenBeat(es, params, i, e, f);
      BeatsOutranks(p, ScoreOne(es, e, params), ScoreOne(es, f, params));
      TiltedIsScored(es, f, params, score);
    }
  }

  lemma RestatesTilted(es: seq<Eligible>, e: Eligible, params: Params, p: Position)
    requires Restates(p, ScoreOne(es, e, params))
    ensures IsFor(p, e) && Tilted(es, e, params, p.score)
  {
    hide RankOf;
  }

  lemma TiltedIsScored(es: seq<Eligible>, e: Eligible, params: Params, score: real)
    requires Tilted(es, e, params, score)
    ensures ScoreOne(es, e, params).score == score && ScoreOne(es, e, params).symbol == e.symbol
  {
    hide RankOf;
  }

  lemma BeatsOutranks(p: Position, a: Scored, b: Scored)
    requires Restates(p, a) && Beats(a, b)
    ensures Outranks(p.score, p.symbol, b.score, b.symbol)
  {
  }

  lemma ChosenAreOrdered(es: seq<Eligible>, params: Params)
    requires ValidParams(params) && DistinctNames(es)
    ensures var ps := Choose(es, params);
            forall i, j :: 0 <= i < j < |ps| ==> Outranks(ps[i].score, ps[i].symbol, ps[j].score, ps[j].symbol)
  {
    var ps, ordered := Choose(es, params), Ordered(es, params);
    OrderedIsStrict(es, params);
    ChosenRestate(es, params);
    hide Choose, Ordered, Beats, Restates, Outranks;
    forall i, j | 0 <= i < j < |ps| ensures Outranks(ps[i].score, ps[i].symbol, ps[j].score, ps[j].symbol) {
      assert Beats(ordered[i], ordered[j]);
      BeatsOutranks(ps[i], ordered[i], ordered[j]);
      RestatesKeep(ps[j], ordered[j]);
    }
  }

  lemma RestatesKeep(p: Position, s: Scored)
    requires Restates(p, s)
    ensures p.score == s.score && p.symbol == s.symbol
  {
  }

  // The weights

  lemma {:induction false} SumOfEqual(entries: seq<Entry>, weight: real)
    requires forall e :: e in entries ==> e.amount == weight
    ensures Sum(entries) == |entries| as real * weight
  {
    if |entries| > 0 {
      assert entries[|entries| - 1] in entries;
      SumOfEqual(entries[..|entries| - 1], weight);
    }
  }

  function Share(count: nat, maxWeight: real): real
    requires count > 0
  {
    Reals.Min(1.0 / count as real, maxWeight)
  }

  /** The invested fraction of `count` equal shares under a cap. */
  function Invested(count: nat, maxWeight: real): real
    requires count > 0
  {
    count as real * Share(count, maxWeight)
  }

  lemma ShareBounds(count: nat, maxWeight: real)
    requires count > 0 && 0.0 < maxWeight <= 1.0
    ensures 0.0 < Share(count, maxWeight) <= maxWeight
    ensures Invested(count, maxWeight) <= 1.0
    ensures 1.0 / count as real <= maxWeight ==> Invested(count, maxWeight) == 1.0
  {
    var n := count as real;
    assert n * (1.0 / n) == 1.0;
    assert 1.0 / n > 0.0;
    assert Share(count, maxWeight) <= 1.0 / n;
    assert n * (1.0 / n - Share(count, maxWeight)) >= 0.0;
  }

  /** Equal shares of distinct names make a long-only target that never breaches the cap. */
  lemma EqualShares(chosen: seq<Scored>, maxWeight: real)
    requires forall i, j :: 0 <= i < j < |chosen| ==> chosen[i].symbol != chosen[j].symbol
    requires 0.0 < maxWeight <= 1.0
    ensures var ps := Weigh(chosen, maxWeight);
            && LongOnly(TargetOf(ps))
            && (forall p :: p in ps ==> p.weight == Share(|ps|, maxWeight) && 0.0 < p.weight <= maxWeight)
            && (|ps| > 0 ==> Sum(TargetOf(ps)) == Invested(|ps|, maxWeight))
  {
    var ps := Weigh(chosen, maxWeight);
    if |ps| > 0 {
      ShareBounds(|ps|, maxWeight);
      forall e | e in TargetOf(ps) ensures e.amount == Share(|ps|, maxWeight) {
        var k :| 0 <= k < |ps| && TargetOf(ps)[k] == e;
      }
      SumOfEqual(TargetOf(ps), Share(|ps|, maxWeight));
    }
  }

  /** The target of a selection is long only, never more than fully invested, and never breaches the cap. */
  lemma TargetIsLongOnly(es: seq<Eligible>, params: Params)
    requires ValidParams(params) && DistinctNames(es)
    ensures var ps := Choose(es, params);
            && LongOnly(TargetOf(ps))
            && |ps| == PositionCount(|es|, params)
            && (forall p :: p in ps ==> p.weight == Share(|ps|, params.maxWeight) && 0.0 < p.weight <= params.maxWeight)
            && (forall p :: p in ps ==>
                  p.weight == if 1.0 / |ps| as real <= params.maxWeight then 1.0 / |ps| as real else params.maxWeight)
            && (|ps| > 0 ==> Sum(TargetOf(ps)) == Invested(|ps|, params.maxWeight))
  {
    hide Weigh, TargetOf, Ordered, LongOnly;
    OrderedIsStrict(es, params);
    EqualShares(Ordered(es, params)[..PositionCount(|es|, params)], params.maxWeight);
  }

  lemma CeilingBounds(x: real)
    ensures x <= Ceiling(x) as real < x + 1.0
  {
  }

  /** Under `extend` the book is filled whenever there are names enough, and otherwise every eligible name sits
      at exactly the cap. */
  lemma ExtendFillsTheBook(es: seq<Eligible>, params: Params)
    requires ValidParams(params) && params.cashPolicy.Extend? && DistinctNames(es) && |es| > 0
    ensures var ps := Choose(es, params); var total := Sum(TargetOf(ps));
            if |es| >= Needed(params.maxWeight) then 1.0 - 0.000000001 <= total <= 1.0
            else && |ps| == |es|
                 && (forall p :: p in ps ==> p.weight == params.maxWeight)
                 && total == |es| as real * params.maxWeight < 1.0
  {
    hide Choose, Share, Invested, TargetOf, LongOnly, Sum;
    TargetIsLongOnly(es, params);
    var cap, n := params.maxWeight, PositionCount(|es|, params);
    CeilingBounds(1.0 / cap - 0.000000001);
    ShareBounds(n, cap);
    if |es| >= Needed(cap) {
      FullShare(n, cap, Needed(cap));
    } else {
      CappedShare(|es|, cap, Needed(cap));
    }
  }

  lemma FullShare(n: nat, cap: real, needed: int)
    requires 0.0 < cap <= 1.0 && n > 0 && n >= needed && 1.0 / cap - 0.000000001 <= needed as real
    ensures 1.0 - 0.000000001 <= Invested(n, cap)
  {
    ShareBounds(n, cap);
    assert cap * (1.0 / cap) == 1.0;
    if 1.0 / n as real > cap {
      assert (n as real - (1.0 / cap - 0.000000001)) * cap >= 0.0;
    }
  }

  lemma CappedShare(n: nat, cap: real, needed: int)
    requires 0.0 < cap <= 1.0 && 0 < n < needed && needed as real < 1.0 / cap - 0.000000001 + 1.0
    ensures Share(n, cap) == cap && Invested(n, cap) == n as real * cap < 1.0
  {
    BelowReciprocal(n as real, cap);
  }

  lemma BelowReciprocal(x: real, cap: real)
    requires cap > 0.0 && x > 0.0 && x < 1.0 / cap
    ensures x * cap < 1.0 && cap < 1.0 / x
  {
    Reals.ReciprocalAbove(x, cap, 1.0 / cap);
    Reals.ReciprocalAbove(cap, x, 1.0 / x);
  }

  /**
   * How many names are held. Policy `cash`: the best `topN`, or all there are. Policy `extend`: at least as many, and
   * as many more, if there are, as full investment under the cap takes.
   */
  lemma NamesHeld(es: seq<Eligible>, params: Params)
    requires ValidParams(params)
    ensures var held := |Choose(es, params)|;
            && held <= |es|
            && (params.cashPolicy.KeepCash? ==> held <= params.topN && (held < params.topN ==> held == |es|))
            && (params.cashPolicy.Extend? ==>
                  && (held < |es| ==> held >= params.topN && held as real >= 1.0 / params.maxWeight - 0.000000001)
                  && (held > params.topN ==> (held - 1) as real < 1.0 / params.maxWeight - 0.000000001))
  {
    CeilingBounds(1.0 / params.maxWeight - 0.000000001);
    Sorting.SortKeepsElements(ScoreAll(es, params), ScoredLe);
    hide Ceiling, Sorting.Sort, ScoreAll;
  }

  /** A name qualifies exactly when both closes are there, every gate admits the return and needed support is there. */
  lemma QualifiesExactly(
      panel: Panel, symbol: Symbol, index: nat, params: Params, scores: map<Symbol, real>, current: real, past: real)
    requires ClosesAt(panel, symbol, index, current) && ClosesAt(panel, symbol, index - params.lookbackDays, past)
    requires past > 0.0
    ensures var support := if symbol in scores then scores[symbol] else 0.0;
            var momentum := (current - past) / past;
            Qualify(panel, symbol, index, params, scores)
              == if GatesAdmit(momentum, params.gates) && (params.requireClaimSupport ==> support > 0.0)
                 then Some(Eligible(symbol, momentum, support)) else None
  {
    BarIsTheClose(panel, symbol, index, current);
    BarIsTheClose(panel, symbol, index - params.lookbackDays, past);
    var ratio := current / past;
    assert ratio * past == current;
    assert (ratio - 1.0) * past == current - past;
    Reals.QuotientIs(current - past, past, ratio - 1.0);
    hide Bar;
    GatesAreComparisons(ratio - 1.0, params.gates);
    hide PassesGates, GatesAdmit;
  }

  /** Without both closes, or with a past close that is not positive, a name does not qualify. */
  lemma UnpricedDoesNotQualify(
      panel: Panel, symbol: Symbol, index: nat, before: int, params: Params, scores: map<Symbol, real>)
    requires before == index - params.lookbackDays
    requires forall current, past ::
               ClosesAt(panel, symbol, index, current) && ClosesAt(panel, symbol, before, past) ==> past <= 0.0
    ensures Qualify(panel, symbol, index, params, scores).None?
  {
    var current, past := Bar(panel, symbol, index), Bar(panel, symbol, before);
    if current.Some? && past.Some? {
      BarIsTheClose(panel, symbol, index, current.value);
      BarIsTheClose(panel, symbol, before, past.value);
    }
    hide Bar;
  }

  predicate Admits(gate: Gate, momentum: real) {
    match gate.operator
    case "gt" => momentum > gate.threshold
    case "gte" => momentum >= gate.threshold
    case "lt" => momentum < gate.threshold
    case "lte" => momentum <= gate.threshold
    case _ => true
  }

  /** Every gate holds of the raw return. */
  ghost predicate GatesAdmit(momentum: real, gates: seq<Gate>) {
    forall k :: 0 <= k < |gates| ==> Admits(gates[k], momentum)
  }

  lemma GatesAreComparisons(momentum: real, gates: seq<Gate>)
    ensures PassesGates(momentum, gates) <==> GatesAdmit(momentum, gates)
  {
    forall k | 0 <= k < |gates| && PassesGates(momentum, gates) ensures Admits(gates[k], momentum) {
      assert gates[k] in gates;
    }
  }

  // Raising one name's support

  function Raise(es: seq<Eligible>, k: nat, support: real): (raised: seq<Eligible>)
    requires k < |es|
    ensures |raised| == |es|
  {
    es[k := es[k].(support := support)]
  }

  lemma SupportLeavesRanks(es: seq<Eligible>, k: nat, support: real, momentum: real)
    requires k < |es|
    ensures RankOf(Raise(es, k, support), momentum) == RankOf(es, momentum)
  {
    var raised := Raise(es, k, support);
    var low, high := (e: Eligible) => e.momentum < momentum, (e: Eligible) => e.momentum > momentum;
    Sorting.CountMonotone(es, raised, low, low);
    Sorting.CountMonotone(raised, es, low, low);
    Sorting.CountMonotone(es, raised, high, high);
    Sorting.CountMonotone(raised, es, high, high);
    assert Below(raised, momentum) == Sorting.Count(raised, low);
  }

  /** More support for a chosen name, all else fixed, keeps it chosen at no worse a place. */
  lemma RaisingSupportKeepsChosen(es: seq<Eligible>, k: nat, support: real, params: Params, i: nat)
    returns (j: nat)
    requires ValidParams(params) && DistinctNames(es) && k < |es| && support >= es[k].support
    requires i < |Choose(es, params)| && Choose(es, params)[i].symbol == es[k].symbol
    ensures j <= i && j < |Choose(Raise(es, k, support), params)|
    ensures Choose(Raise(es, k, support), params)[j].symbol == es[k].symbol
  {
    var raised := Raise(es, k, support);
    var was, now := ScoreAll(es, params), ScoreAll(raised, params);
    RaiseScores(es, k, support, params);
    OrderedIsStrict(es, params);
    OrderedIsStrict(raised, params);
    assert Ordered(es, params)[i] == was[k] by {
      Sorting.SameMembers(Ordered(es, params), was);
      assert Ordered(es, params)[i] in was;
    }
    j := PlaceOf(raised, params, k);
    hide Ordered, ScoreAll, ScoreOne, Beats;
    PlaceIsBeatCount(es, params, i);
    PlaceIsBeatCount(raised, params, j);
    FewerBeat(was, now, k);
  }

  lemma {:induction false} RaisedEligibles(
      panel: Panel, symbols: seq<Symbol>, index: nat, params: Params, scores: map<Symbol, real>, symbol: Symbol,
        support: real)
    requires support >= SupportOf(scores, symbol)
    requires symbol in symbols ==> Qualify(panel, symbol, index, params, scores).Some?
    ensures var was := Eligibles(panel, symbols, index, params, scores);
            var now := Eligibles(panel, symbols, index, params, scores[symbol := support]);
            && |now| == |was|
            && forall m :: 0 <= m < |was| ==>
                 now[m] == if was[m].symbol == symbol then was[m].(support := support) else was[m]
  {
    if |symbols| > 0 {
      RaisedEligibles(panel, symbols[..|symbols| - 1], index, params, scores, symbol, support);
    }
  }

  /** A chosen name whose claims grow stronger, the rest unchanged, stays chosen and does not lose its place. */
  lemma StrongerClaimsKeepTheirName(
      panel: Panel, symbols: seq<Symbol>, index: nat, params: Params, scores: map<Symbol, real>, support: real, i: nat)
    returns (j: nat)
    requires ValidParams(params) && DistinctUniverse(symbols) && i < |Selected(panel, symbols, index, params, scores)|
    requires support >= SupportOf(scores, Selected(panel, symbols, index, params, scores)[i].symbol)
    ensures var symbol := Selected(panel, symbols, index, params, scores)[i].symbol;
            var now := Selected(panel, symbols, index, params, scores[symbol := support]);
            j <= i && j < |now| && now[j].symbol == symbol
  {
    hide Choose;
    var symbol := Selected(panel, symbols, index, params, scores)[i].symbol;
    var es := Eligibles(panel, symbols, index, params, scores);
    EligiblesComeFromSymbols(panel, symbols, index, params, scores);
    var e := ChosenFrom(es, params, i);
    hide ScoreOne, RankOf;
    var k :| 0 <= k < |es| && es[k] == e;
    RaisedEligibles(panel, symbols, index, params, scores, symbol, support);
    assert Eligibles(panel, symbols, index, params, scores[symbol := support]) == Raise(es, k, support);
    j := RaisingSupportKeepsChosen(es, k, support, params, i);
  }

  lemma PlaceOf(es: seq<Eligible>, params: Params, k: nat) returns (j: nat)
    requires DistinctNames(es) && k < |es|
    ensures j < |Ordered(es, params)| && Ordered(es, params)[j] == ScoreAll(es, params)[k]
  {
    OrderedIsStrict(es, params);
    Sorting.SameMembers(Ordered(es, params), ScoreAll(es, params));
    assert ScoreAll(es, params)[k] in Ordered(es, params);
    j :| 0 <= j < |Ordered(es, params)| && Ordered(es, params)[j] == ScoreAll(es, params)[k];
  }

  lemma RaiseScores(es: seq<Eligible>, k: nat, support: real, params: Params)
    requires ValidParams(params) && k < |es| && support >= es[k].support
    ensures var was, now := ScoreAll(es, params), ScoreAll(Raise(es, k, support), params);
            && (forall m :: 0 <= m < |was| && m != k ==> now[m] == was[m])
            && now[k].symbol == was[k].symbol && now[k].score >= was[k].score
  {
    var raised := Raise(es, k, support);
    var was, now := ScoreAll(es, params), ScoreAll(raised, params);
    forall m | 0 <= m < |es|
      ensures Rank(raised, raised[m], params) == Rank(es, es[m], params)
      ensures was[m] == ScoreOne(es, es[m], params) && now[m] == ScoreOne(raised, raised[m], params)
      ensures m != k ==> now[m] == was[m]
    {
      SupportLeavesRanks(es, k, support, es[m].momentum);
    }
    hide RankOf, Rank, ScoreAll;
    TiltGrows(params.signalWeight, es[k].support, support);
    assert now[k].score == Rank(es, es[k], params) + params.signalWeight * support;
    assert was[k].score == Rank(es, es[k], params) + params.signalWeight * es[k].support;
    hide ScoreOne;
  }

  lemma TiltGrows(weight: real, before: real, after: real)
    requires weight >= 0.0 && before <= after
    ensures weight * before <= weight * after
  {
    assert weight * (after - before) >= 0.0;
  }

  lemma FewerBeat(was: seq<Scored>, now: seq<Scored>, k: nat)
    requires |was| == |now| && k < |was| && forall m :: 0 <= m < |was| && m != k ==> now[m] == was[m]
    requires now[k].symbol == was[k].symbol && now[k].score >= was[k].score
    ensures var x, y := was[k], now[k];
            Sorting.Count(now, (z: Scored) => Beats(z, y)) <= Sorting.Count(was, (z: Scored) => Beats(z, x))
  {
    var x, y := was[k], now[k];
    Text.LessIrreflexive(x.symbol);
    Sorting.CountMonotone(now, was, (z: Scored) => Beats(z, y), (z: Scored) => Beats(z, x));
  }
}
