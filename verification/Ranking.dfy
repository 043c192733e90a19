/** Cross-sectional momentum ranks: the tie-sharing scan and the counting meaning it refines. */
module Ranking {
  import opened Ledger
  import Reals
  import Sorting
  import Text

  /** A name that may be selected, with its trailing return and its research support. */
  datatype Eligible = Eligible(symbol: Symbol, momentum: real, support: real)

  ghost predicate DistinctNames(es: seq<Eligible>) {
    forall i, j :: 0 <= i < j < |es| ==> es[i].symbol != es[j].symbol
  }

  predicate MomentumLe(a: Eligible, b: Eligible) {
    a.momentum < b.momentum || (a.momentum == b.momentum && (a.symbol == b.symbol || Text.Less(a.symbol, b.symbol)))
  }

  lemma MomentumLeIsTotal()
    ensures Sorting.TotalPreorder(MomentumLe)
  {
    Text.LessIsStrictTotalOrder();
  }

  /** How many names returned strictly less than `momentum`. */
  function Below(es: seq<Eligible>, momentum: real): nat {
    Sorting.Count(es, (e: Eligible) => e.momentum < momentum)
  }

  /** How many names returned strictly more than `momentum`. */
  function Above(es: seq<Eligible>, momentum: real): nat {
    Sorting.Count(es, (e: Eligible) => e.momentum > momentum)
  }

  function Net(es: seq<Eligible>, momentum: real): int {
    Below(es, momentum) - Above(es, momentum)
  }

  /** The rank of a return within a cross-section: names beaten minus names beating, over the other names. */
  function RankOf(es: seq<Eligible>, momentum: real): real {
    if |es| <= 1 then 0.0 else Net(es, momentum) as real / (|es| - 1) as real
  }

  /** A maximal block of equal returns in a sorted cross-section. */
  ghost predicate Block(ordered: seq<Eligible>, start: nat, stop: nat) {
    && start < stop <= |ordered|
    && (forall i :: 0 <= i < start ==> ordered[i].momentum < ordered[start].momentum)
    && (forall i :: start <= i < stop ==> ordered[i].momentum == ordered[start].momentum)
    && (forall i :: stop <= i < |ordered| ==> ordered[i].momentum > ordered[start].momentum)
  }

  lemma BlockCounts(ordered: seq<Eligible>, start: nat, stop: nat)
    requires Block(ordered, start, stop)
    ensures Below(ordered, ordered[start].momentum) == start
    ensures Above(ordered, ordered[start].momentum) == |ordered| - stop
  {
    var m := ordered[start].momentum;
    Sorting.CountPrefix(ordered, start, (e: Eligible) => e.momentum < m);
    Sorting.CountSuffix(ordered, stop, (e: Eligible) => e.momentum > m);
  }

  /** The block's shared average position, rescaled to [-1, 1], is its counting rank. */
  lemma BlockRank(ordered: seq<Eligible>, start: nat, stop: nat)
    requires Block(ordered, start, stop) && |ordered| >= 2
    ensures RankOf(ordered, ordered[start].momentum)
         == 2.0 * ((start + stop - 1) as real / 2.0) / (|ordered| - 1) as real - 1.0
  {
    hide Below, Above;
    BlockCounts(ordered, start, stop);
    SharedRank(start, stop, |ordered|);
  }

  lemma SharedRank(start: nat, stop: nat, count: nat)
    requires start < stop <= count && count >= 2
    ensures 2.0 * ((start + stop - 1) as real / 2.0) / (count - 1) as real - 1.0
         == (start - (count - stop)) as real / (count - 1) as real
  {
    var d, top := (count - 1) as real, (start + stop - 1) as real;
    assert (start - (count - stop)) as real == top - d;
    assert 2.0 * (top / 2.0) == top;
    var q := top / d;
    assert q * d == top;
    Reals.QuotientIs(top - d, d, q - 1.0);
  }

  ghost predicate RanksFor(ranks: map<Symbol, real>, ordered: seq<Eligible>, done: nat)
    requires done <= |ordered|
  {
    && (forall i :: 0 <= i < done ==>
          ordered[i].symbol in ranks && ranks[ordered[i].symbol] == RankOf(ordered, ordered[i].momentum))
    && (forall s :: s in ranks ==> exists i :: 0 <= i < done && ordered[i].symbol == s)
  }

  lemma RanksForStep(ranks: map<Symbol, real>, ordered: seq<Eligible>, done: nat, shared: real)
    requires DistinctNames(ordered) && done < |ordered| && RanksFor(ranks, ordered, done)
    requires shared == RankOf(ordered, ordered[done].momentum)
    ensures RanksFor(ranks[ordered[done].symbol := shared], ordered, done + 1)
  {
    hide RankOf;
  }

  /** One turn of the scan: the block of equal returns at `start` shares its average position. */
  method RankBlock(ordered: seq<Eligible>, start: nat, given: map<Symbol, real>)
    returns (stop: nat, ranks: map<Symbol, real>)
    requires start < |ordered| && |ordered| >= 2 && AscendingMomentum(ordered) && DistinctNames(ordered)
    requires start > 0 ==> ordered[start - 1].momentum < ordered[start].momentum
    requires RanksFor(given, ordered, start)
    ensures start < stop <= |ordered|
    ensures stop < |ordered| ==> ordered[stop - 1].momentum < ordered[stop].momentum
    ensures RanksFor(ranks, ordered, stop)
  {
    var count := |ordered|;
    stop := start + 1;
    while stop < count && ordered[stop].momentum == ordered[start].momentum
      invariant start < stop <= count
      invariant forall i :: start <= i < stop ==> ordered[i].momentum == ordered[start].momentum
    {
      stop := stop + 1;
    }
    var shared := 2.0 * ((start + stop - 1) as real / 2.0) / (count - 1) as real - 1.0;
    BlockFound(ordered, start, stop);
    BlockRank(ordered, start, stop);
    ranks := given;
    hide RanksFor, RankOf;
    for position := start to stop
      invariant RanksFor(ranks, ordered, position)
    {
      RanksForStep(ranks, ordered, position, shared);
      ranks := ranks[ordered[position].symbol := shared];
    }
  }

  /** The scan over the sorted names gives each one the counting rank. */
  method MomentumRanks(eligible: seq<Eligible>) returns (ranks: map<Symbol, real>)
    requires DistinctNames(eligible)
    ensures forall s :: s in ranks <==> exists e :: e in eligible && e.symbol == s
    ensures forall e :: e in eligible ==> ranks[e.symbol] == RankOf(eligible, e.momentum)
  {
    var count := |eligible|;
    if count == 1 {
      return map[eligible[0].symbol := 0.0];
    }
    var ordered := Sorting.Sort(eligible, MomentumLe);
    SortedByMomentum(eligible, ordered);
    hide Sorting.Sort, RankOf;
    ranks := map[];
    var start := 0;
    while start < count
      invariant 0 <= start <= count
      invariant 0 < start < count ==> ordered[start - 1].momentum < ordered[start].momentum
      invariant RanksFor(ranks, ordered, start)
    {
      start, ranks := RankBlock(ordered, start, ranks);
    }
    RanksMatch(ranks, ordered, eligible);
  }

  lemma BlockFound(ordered: seq<Eligible>, start: nat, stop: nat)
    requires start < stop <= |ordered| && AscendingMomentum(ordered)
    requires start > 0 ==> ordered[start - 1].momentum < ordered[start].momentum
    requires forall i :: start <= i < stop ==> ordered[i].momentum == ordered[start].momentum
    requires stop < |ordered| ==> ordered[stop].momentum != ordered[start].momentum
    ensures Block(ordered, start, stop)
  {
    forall i | 0 <= i < start ensures ordered[i].momentum < ordered[start].momentum {
      assert i < start - 1 ==> ordered[i].momentum <= ordered[start - 1].momentum;
    }
    forall i | stop <= i < |ordered| ensures ordered[i].momentum > ordered[start].momentum {
      assert ordered[start].momentum <= ordered[stop].momentum;
      assert stop < i ==> ordered[stop].momentum <= ordered[i].momentum;
    }
  }

  ghost predicate AscendingMomentum(ordered: seq<Eligible>) {
    forall i, j :: 0 <= i < j < |ordered| ==> ordered[i].momentum <= ordered[j].momentum
  }

  lemma SortedByMomentum(eligible: seq<Eligible>, ordered: seq<Eligible>)
    requires DistinctNames(eligible) && ordered == Sorting.Sort(eligible, MomentumLe)
    ensures multiset(ordered) == multiset(eligible) && |ordered| == |eligible|
    ensures AscendingMomentum(ordered) && DistinctNames(ordered)
  {
    MomentumLeIsTotal();
    Sorting.SortKeepsElements(eligible, MomentumLe);
    Sorting.SortIsSorted(eligible, MomentumLe);
    forall i, j | 0 <= i < j < |ordered| ensures ordered[i].momentum <= ordered[j].momentum {
      assert MomentumLe(ordered[i], ordered[j]);
    }
    Sorting.DistinctKeysForgetOrder(eligible, ordered, (e: Eligible) => e.symbol);
  }

  lemma RanksMatch(ranks: map<Symbol, real>, ordered: seq<Eligible>, eligible: seq<Eligible>)
    requires RanksFor(ranks, ordered, |ordered|) && multiset(ordered) == multiset(eligible)
    ensures forall s :: s in ranks <==> exists e :: e in eligible && e.symbol == s
    ensures forall e :: e in eligible ==> ranks[e.symbol] == RankOf(eligible, e.momentum)
  {
    Sorting.SameMembers(ordered, eligible);
    forall e | e in eligible ensures e.symbol in ranks && ranks[e.symbol] == RankOf(eligible, e.momentum) {
      assert e in ordered;
      RanksForgetOrder(eligible, ordered, e.momentum);
    }
    forall s | s in ranks ensures exists e :: e in eligible && e.symbol == s {
      var i :| 0 <= i < |ordered| && ordered[i].symbol == s;
      assert ordered[i] in eligible;
    }
  }

  // What the ranks mean

  /** With two names or more, ranks lie in [-1, 1] and order names exactly as their returns do. */
  lemma RanksOrderAsMomentum(es: seq<Eligible>, a: Eligible, b: Eligible)
    requires |es| >= 2 && a in es && b in es
    ensures -1.0 <= RankOf(es, a.momentum) <= 1.0
    ensures a.momentum < b.momentum <==> RankOf(es, a.momentum) < RankOf(es, b.momentum)
    ensures a.momentum < b.momentum ==>
              RankOf(es, b.momentum) - RankOf(es, a.momentum) >= 2.0 / (|es| - 1) as real
  {
    NetBounds(es, a);
    if a.momentum < b.momentum {
      NetGap(es, a, b);
      Quotients(Net(es, a.momentum), Net(es, b.momentum), |es| - 1);
    } else if b.momentum < a.momentum {
      NetGap(es, b, a);
      Quotients(Net(es, b.momentum), Net(es, a.momentum), |es| - 1);
    }
    Quotients(Net(es, a.momentum), |es| - 1, |es| - 1);
    Quotients(-(|es| - 1), Net(es, a.momentum), |es| - 1);
  }

  lemma Quotients(a: int, b: int, d: int)
    requires d > 0 && a <= b
    ensures a as real / d as real <= b as real / d as real
    ensures a + 2 <= b ==> b as real / d as real - a as real / d as real >= 2.0 / d as real > 0.0
    ensures d as real / d as real == 1.0 && (-d) as real / d as real == -1.0
  {
    var k := d as real;
    assert b as real / k - a as real / k == (b - a) as real / k;
    Reals.DivideMonotone(0.0, (b - a) as real, k);
    if a + 2 <= b {
      Reals.DivideMonotone(2.0, (b - a) as real, k);
    }
  }

  lemma NetSplit(es: seq<Eligible>, e: Eligible) returns (rest: seq<Eligible>)
    requires e in es
    ensures |rest| == |es| - 1
    ensures forall m :: Below(es, m) == Below(rest, m) + (if e.momentum < m then 1 else 0)
    ensures forall m :: Above(es, m) == Above(rest, m) + (if e.momentum > m then 1 else 0)
    ensures forall x :: x in es && x != e ==> x in rest
  {
    var k :| 0 <= k < |es| && es[k] == e;
    rest := Sorting.Without(es, k);
    Sorting.WithoutDropsOne(es, k);
    forall m
      ensures Below(es, m) == Below(rest, m) + (if e.momentum < m then 1 else 0)
      ensures Above(es, m) == Above(rest, m) + (if e.momentum > m then 1 else 0)
    {
      Sorting.CountWithout(es, k, (x: Eligible) => x.momentum < m);
      Sorting.CountWithout(es, k, (x: Eligible) => x.momentum > m);
    }
  }

  lemma NetBounds(es: seq<Eligible>, a: Eligible)
    requires a in es
    ensures -(|es| - 1) <= Net(es, a.momentum) <= |es| - 1
  {
    var rest := NetSplit(es, a);
    Sorting.CountDisjoint(rest, (x: Eligible) => x.momentum < a.momentum, (x: Eligible) => x.momentum > a.momentum);
  }

  /** Between two distinct returns the lower name is newly beaten and the higher one no longer beats. */
  lemma NetGap(es: seq<Eligible>, a: Eligible, b: Eligible)
    requires a in es && b in es && a.momentum < b.momentum
    ensures Net(es, a.momentum) + 2 <= Net(es, b.momentum)
  {
    var noA := NetSplit(es, a);
    var neither := NetSplit(noA, b);
    Sorting.CountMonotone(neither, neither,
      (x: Eligible) => x.momentum < a.momentum, (x: Eligible) => x.momentum < b.momentum);
    Sorting.CountMonotone(neither, neither,
      (x: Eligible) => x.momentum > b.momentum, (x: Eligible) => x.momentum > a.momentum);
  }

  /** The ranks of a cross-section cancel out. */
  lemma RanksSumToZero(es: seq<Eligible>)
    ensures SumRanks(es, es) == 0.0
  {
    SumNetIsAntisymmetric(es, es);
    SumRanksIsSumNet(es, es);
  }

  function SumRanks(xs: seq<Eligible>, es: seq<Eligible>): real {
    if |xs| == 0 then 0.0 else RankOf(es, xs[0].momentum) + SumRanks(xs[1..], es)
  }

  function SumNet(xs: seq<Eligible>, es: seq<Eligible>): int {
    if |xs| == 0 then 0 else Net(es, xs[0].momentum) + SumNet(xs[1..], es)
  }

  lemma {:induction false} SumRanksIsSumNet(xs: seq<Eligible>, es: seq<Eligible>)
    ensures SumRanks(xs, es) == if |es| <= 1 then 0.0 else SumNet(xs, es) as real / (|es| - 1) as real
  {
    if |xs| > 0 {
      SumRanksIsSumNet(xs[1..], es);
      hide Net;
      if |es| > 1 {
        QuotientsAdd(Net(es, xs[0].momentum), SumNet(xs[1..], es), |es| - 1);
      }
    }
  }

  lemma QuotientsAdd(a: int, b: int, d: int)
    requires d > 0
    ensures a as real / d as real + b as real / d as real == (a + b) as real / d as real
  {
  }

  lemma {:induction false} SumNetEmpty(xs: seq<Eligible>)
    ensures SumNet(xs, []) == 0
  {
    if |xs| > 0 {
      SumNetEmpty(xs[1..]);
    }
  }

  lemma {:induction false} SumNetStep(xs: seq<Eligible>, es: seq<Eligible>)
    requires |es| > 0
    ensures SumNet(xs, es) == SumNet(xs, es[1..]) - Net(xs, es[0].momentum)
  {
    if |xs| > 0 {
      SumNetStep(xs[1..], es);
    }
  }

  lemma {:induction false} SumNetIsAntisymmetric(xs: seq<Eligible>, es: seq<Eligible>)
    ensures SumNet(xs, es) == -SumNet(es, xs)
  {
    if |es| == 0 {
      SumNetEmpty(xs);
    } else {
      SumNetStep(xs, es);
      SumNetIsAntisymmetric(xs, es[1..]);
    }
  }

  /** Ranks do not depend on the order the names are listed in. */
  lemma RanksForgetOrder(a: seq<Eligible>, b: seq<Eligible>, momentum: real)
    requires multiset(a) == multiset(b)
    ensures RankOf(a, momentum) == RankOf(b, momentum)
  {
    Sorting.CountForgetsOrder(a, b, (e: Eligible) => e.momentum < momentum);
    Sorting.CountForgetsOrder(a, b, (e: Eligible) => e.momentum > momentum);
    Sorting.SameMembers(a, b);
  }

  ghost predicate StrictlyIncreasing(f: real -> real) {
    forall x, y :: x < y <==> f(x) < f(y)
  }

  function Rescale(es: seq<Eligible>, f: real -> real): (rescaled: seq<Eligible>)
    ensures |rescaled| == |es|
  {
    seq(|es|, i requires 0 <= i < |es| => es[i].(momentum := f(es[i].momentum)))
  }

  /** Any strictly increasing rescaling of the returns leaves every rank alone. */
  lemma RanksIgnoreScale(es: seq<Eligible>, f: real -> real, momentum: real)
    requires StrictlyIncreasing(f)
    ensures RankOf(Rescale(es, f), f(momentum)) == RankOf(es, momentum)
  {
    var scaled := Rescale(es, f);
    Sorting.CountMonotone(es, scaled, (e: Eligible) => e.momentum < momentum,
      (e: Eligible) => e.momentum < f(momentum));
    Sorting.CountMonotone(scaled, es, (e: Eligible) => e.momentum < f(momentum),
      (e: Eligible) => e.momentum < momentum);
    Sorting.CountMonotone(es, scaled, (e: Eligible) => e.momentum > momentum,
      (e: Eligible) => e.momentum > f(momentum));
    Sorting.CountMonotone(scaled, es, (e: Eligible) => e.momentum > f(momentum),
      (e: Eligible) => e.momentum > momentum);
  }
}
