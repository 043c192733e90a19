/** What a run is measured against: the equal-weight baseline, relative metrics and the drawdown of a curve. */
module Benchmark {
  import opened Drift
  import opened Ledger
  import opened Market
  import opened Options
  import Reals

  // The buy-and-hold baseline

  datatype Hold = Hold(equity: real, held: seq<Entry>, curve: seq<real>, dailyReturns: seq<real>)

  const HOLD_INITIAL := Hold(1.0, [], [], [])

  function PricedAt(panel: Panel, symbols: seq<Symbol>, index: nat): seq<Symbol> {
    if |symbols| == 0 then []
    else
      var before, last := PricedAt(panel, symbols[..|symbols| - 1], index), symbols[|symbols| - 1];
      if Bar(panel, last, index).Some? then before + [last] else before
  }

  function EqualSplit(symbols: seq<Symbol>, equity: real): (held: seq<Entry>)
    ensures |held| == |symbols|
  {
    var n := |symbols|;
    seq(n, k requires 0 <= k < n => Entry(symbols[k], equity / n as real))
  }

  function HoldMark(panel: Panel, index: nat, h: Hold): Hold {
    if index == 0 then h
    else
      var held := MarkValues(panel, h.held, index);
      var equity := if |held| > 0 then Sum(held) else h.equity;
      h.(held := held, equity := equity,
         dailyReturns := h.dailyReturns + [if h.equity > 0.0 then equity / h.equity - 1.0 else 0.0])
  }

  function HoldBuy(panel: Panel, symbols: seq<Symbol>, index: nat, firstFill: Option<nat>, h: Hold): Hold {
    if firstFill == Some(index) && |PricedAt(panel, symbols, index)| > 0
    then h.(held := EqualSplit(PricedAt(panel, symbols, index), h.equity))
    else h
  }

  function HoldRecord(h: Hold): Hold {
    h.(curve := h.curve + [h.equity])
  }

  function HoldDay(panel: Panel, symbols: seq<Symbol>, index: nat, firstFill: Option<nat>, h: Hold): Hold {
    HoldRecord(HoldBuy(panel, symbols, index, firstFill, HoldMark(panel, index, h)))
  }

  function HoldRun(panel: Panel, symbols: seq<Symbol>, firstFill: Option<nat>, n: nat): Hold {
    if n == 0 then HOLD_INITIAL
    else HoldDay(panel, symbols, n - 1, firstFill, HoldRun(panel, symbols, firstFill, n - 1))
  }

  method BuyAndHold(panel: Panel, symbols: seq<Symbol>, firstFill: Option<nat>)
    returns (curve: seq<real>, dailyReturns: seq<real>)
    ensures curve == HoldRun(panel, symbols, firstFill, |panel.dates|).curve
    ensures dailyReturns == HoldRun(panel, symbols, firstFill, |panel.dates|).dailyReturns
  {
    hide MarkValues, Sum, PricedAt;
    var equity, held: seq<Entry> := 1.0, [];
    curve, dailyReturns := [], [];
    for index := 0 to |panel.dates|
      invariant Hold(equity, held, curve, dailyReturns) == HoldRun(panel, symbols, firstFill, index)
    {
      if index > 0 {
        var previousEquity := equity;
        held := MarkToMarket(panel, held, index);
        if |held| > 0 {
          equity := Sum(held);
        }
        dailyReturns := dailyReturns + [if previousEquity > 0.0 then equity / previousEquity - 1.0 else 0.0];
      }
      if firstFill.Some? && index == firstFill.value {
        var priced := PricedSymbols(panel, symbols, index);
        if |priced| > 0 {
          held := EqualSplit(priced, equity);
        }
      }
      curve := curve + [equity];
    }
  }

  method PricedSymbols(panel: Panel, symbols: seq<Symbol>, index: nat) returns (priced: seq<Symbol>)
    ensures priced == PricedAt(panel, symbols, index)
  {
    priced := [];
    for k := 0 to |symbols|
      invariant priced == PricedAt(panel, symbols[..k], index)
    {
      assert symbols[..k + 1][..k] == symbols[..k];
      if Bar(panel, symbols[k], index).Some? {
        priced := priced + [symbols[k]];
      }
    }
    assert symbols[..|symbols|] == symbols;
  }

  // Metrics against a benchmark

  const TRADING_DAYS_PER_YEAR := 252.0

  function Total(xs: seq<real>): real {
    if |xs| == 0 then 0.0 else Total(xs[..|xs| - 1]) + xs[|xs| - 1]
  }

  function Deviation(x: real, mx: real, y: real, my: real): real {
    (x - mx) * (y - my)
  }

  /** The sum of the products of the deviations of two series from `mx` and `my`. */
  function CrossSum(xs: seq<real>, mx: real, ys: seq<real>, my: real): real
    requires |xs| == |ys|
  {
    if |xs| == 0 then 0.0
    else CrossSum(xs[..|xs| - 1], mx, ys[..|ys| - 1], my) + Deviation(xs[|xs| - 1], mx, ys[|ys| - 1], my)
  }

  function Mean(xs: seq<real>): real
    requires |xs| > 0
  {
    Total(xs) / |xs| as real
  }

  function Covariance(xs: seq<real>, ys: seq<real>): real
    requires |xs| == |ys| > 0
  {
    CrossSum(xs, Mean(xs), ys, Mean(ys)) / |xs| as real
  }

  function Active(xs: seq<real>, ys: seq<real>): (active: seq<real>)
    requires |xs| == |ys|
    ensures |active| == |xs|
  {
    seq(|xs|, k requires 0 <= k < |xs| => xs[k] - ys[k])
  }

  function SampleVariance(xs: seq<real>): real
    requires |xs| >= 2
  {
    CrossSum(xs, Mean(xs), xs, Mean(xs)) / (|xs| - 1) as real
  }

  /** `activeVariance` is the sample variance of the active returns; the tracking error vanishes with it. */
  datatype Relative = NotComparable | Relative(alpha: real, beta: real, activeVariance: real)

  function RelativeMetrics(strategy: seq<real>, benchmark: seq<real>, riskFreeRate: real): Relative {
    if |strategy| != |benchmark| || |strategy| < 2 then NotComparable
    else
      var daily := riskFreeRate / TRADING_DAYS_PER_YEAR;
      var variance := Covariance(benchmark, benchmark);
      var beta := if variance > 0.0 then Covariance(strategy, benchmark) / variance else 0.0;
      var alpha := ((Mean(strategy) - daily) - beta * (Mean(benchmark) - daily)) * TRADING_DAYS_PER_YEAR;
      var active := Active(strategy, benchmark);
      Relative(alpha, beta, SampleVariance(active))
  }

  lemma {:induction false} SumsOfZeros(xs: seq<real>)
    requires forall x :: x in xs ==> x == 0.0
    ensures Total(xs) == 0.0 && CrossSum(xs, 0.0, xs, 0.0) == 0.0
  {
    if |xs| > 0 {
      var front, last := xs[..|xs| - 1], xs[|xs| - 1];
      assert last in xs && forall x :: x in front ==> x in xs;
      SumsOfZeros(front);
    }
  }

  lemma VarianceOfZeros(xs: seq<real>)
    requires |xs| >= 2 && forall x :: x in xs ==> x == 0.0
    ensures SampleVariance(xs) == 0.0
  {
    SumsOfZeros(xs);
    hide Total, CrossSum;
    assert Mean(xs) == 0.0;
  }

  /** A strategy that is its benchmark has beta one, no alpha and no tracking error. */
  lemma SelfComparison(xs: seq<real>, riskFreeRate: real)
    requires |xs| >= 2 && Covariance(xs, xs) > 0.0
    ensures RelativeMetrics(xs, xs, riskFreeRate) == Relative(0.0, 1.0, 0.0)
  {
    var active := Active(xs, xs);
    forall x | x in active ensures x == 0.0 {
      var k :| 0 <= k < |active| && active[k] == x;
    }
    VarianceOfZeros(active);
    hide Covariance, Mean, SampleVariance;
    var v := Covariance(xs, xs);
    Reals.QuotientIs(v, v, 1.0);
  }

  function Line(c: real, d: real, x: real): real {
    c * x + d
  }

  /** Returns that are `c` times others plus `d` each day. */
  function Affine(xs: seq<real>, c: real, d: real): (ys: seq<real>)
    ensures |ys| == |xs|
  {
    seq(|xs|, k requires 0 <= k < |xs| => Line(c, d, xs[k]))
  }

  lemma AffineFront(xs: seq<real>, c: real, d: real)
    requires |xs| > 0
    ensures Affine(xs, c, d)[..|xs| - 1] == Affine(xs[..|xs| - 1], c, d)
    ensures Affine(xs, c, d)[|xs| - 1] == Line(c, d, xs[|xs| - 1])
  {
    hide Line;
  }

  lemma QuotientBack(x: real, n: real)
    requires n > 0.0
    ensures (x / n) * n == x
  {
  }

  /** Means and covariances average over all days; the sample variance divides by one day fewer. */
  lemma MomentsAreAverages(xs: seq<real>, ys: seq<real>)
    requires |xs| == |ys| >= 2
    ensures Mean(xs) * |xs| as real == Total(xs)
    ensures Covariance(xs, ys) * |xs| as real == CrossSum(xs, Mean(xs), ys, Mean(ys))
    ensures SampleVariance(xs) * (|xs| - 1) as real == CrossSum(xs, Mean(xs), xs, Mean(xs))
  {
    QuotientBack(Total(xs), |xs| as real);
    hide Total, CrossSum;
    var mx, my := Mean(xs), Mean(ys);
    hide Mean;
    QuotientBack(CrossSum(xs, mx, ys, my), |xs| as real);
    QuotientBack(CrossSum(xs, mx, xs, mx), (|xs| - 1) as real);
  }

  lemma {:induction false} TotalAffine(xs: seq<real>, c: real, d: real)
    ensures Total(Affine(xs, c, d)) == Reals.Times(c, Total(xs)) + Reals.Times(d, |xs| as real)
  {
    Reals.TimesAdds(c, 0.0, 0.0);
    Reals.TimesAdds(d, 0.0, 0.0);
    if |xs| > 0 {
      var front, last := xs[..|xs| - 1], xs[|xs| - 1];
      AffineFront(xs, c, d);
      TotalAffine(front, c, d);
      LineIs(c, d, last);
      hide Affine, Line, Reals.Times;
      Reals.TimesAdds(c, Total(front), last);
      Reals.TimesAdds(d, |front| as real, 1.0);
      assert |xs| as real == |front| as real + 1.0;
    }
  }

  lemma LineIs(c: real, d: real, x: real)
    ensures Line(c, d, x) == Reals.Times(c, x) + Reals.Times(d, 1.0)
  {
  }

  lemma {:induction false} CrossSumAffine(xs: seq<real>, m: real, c: real, d: real, ys: seq<real>, my: real)
    requires |xs| == |ys|
    ensures CrossSum(Affine(xs, c, d), Line(c, d, m), ys, my) == Reals.Times(c, CrossSum(xs, m, ys, my))
  {
    hide Line, Deviation, Reals.Times, Affine;
    Reals.TimesAdds(c, 0.0, 0.0);
    if |xs| > 0 {
      var front, rest := xs[..|xs| - 1], ys[..|ys| - 1];
      AffineFront(xs, c, d);
      CrossSumAffine(front, m, c, d, rest, my);
      DeviationScales(xs[|xs| - 1], m, c, d, ys[|ys| - 1], my);
      Reals.TimesAdds(c, CrossSum(front, m, rest, my), Deviation(xs[|xs| - 1], m, ys[|ys| - 1], my));
    }
  }

  lemma DeviationScales(x: real, m: real, c: real, d: real, y: real, my: real)
    ensures Deviation(Line(c, d, x), Line(c, d, m), y, my) == Reals.Times(c, Deviation(x, m, y, my))
  {
    assert Line(c, d, x) - Line(c, d, m) == c * (x - m);
    assert (c * (x - m)) * (y - my) == c * ((x - m) * (y - my));
  }

  lemma {:induction false} CrossSumCommutes(xs: seq<real>, mx: real, ys: seq<real>, my: real)
    requires |xs| == |ys|
    ensures CrossSum(xs, mx, ys, my) == CrossSum(ys, my, xs, mx)
  {
    if |xs| > 0 {
      CrossSumCommutes(xs[..|xs| - 1], mx, ys[..|ys| - 1], my);
    }
  }

  lemma MeanAffine(xs: seq<real>, c: real, d: real)
    requires |xs| >= 2
    ensures Mean(Affine(xs, c, d)) == Line(c, d, Mean(xs))
  {
    TotalAffine(xs, c, d);
    MomentsAreAverages(xs, xs);
    MomentsAreAverages(Affine(xs, c, d), xs);
    hide Mean, Affine, Total, Line, Reals.Times, CrossSum;
    AffineAverage(Mean(Affine(xs, c, d)), Mean(xs), c, d, |xs| as real, Total(xs));
  }

  lemma AffineAverage(x: real, m: real, c: real, d: real, n: real, total: real)
    requires n > 0.0 && m * n == total && x * n == Reals.Times(c, total) + Reals.Times(d, n)
    ensures x == Line(c, d, m)
  {
    assert c * total == (c * m) * n;
    var gap := x - (c * m + d);
    assert gap * n == 0.0;
  }

  lemma ScaledAverage(x: real, v: real, c: real, n: real, sum: real)
    requires n > 0.0 && v * n == sum && x * n == Reals.Times(c, sum)
    ensures x == Reals.Times(c, v)
  {
    assert c * sum == (c * v) * n;
    var gap := x - c * v;
    assert gap * n == 0.0;
  }

  lemma CovarianceAffine(xs: seq<real>, c: real, d: real)
    requires |xs| >= 2
    ensures Covariance(Affine(xs, c, d), xs) == Reals.Times(c, Covariance(xs, xs))
  {
    var ys, m := Affine(xs, c, d), Mean(xs);
    MeanAffine(xs, c, d);
    CrossSumAffine(xs, m, c, d, xs, m);
    MomentsAreAverages(xs, xs);
    MomentsAreAverages(ys, xs);
    hide Mean, Affine, Covariance, CrossSum, Line, Reals.Times, SampleVariance;
    ScaledAverage(Covariance(ys, xs), Covariance(xs, xs), c, |xs| as real, CrossSum(xs, m, xs, m));
  }

  lemma SampleVarianceAffine(xs: seq<real>, c: real, d: real)
    requires |xs| >= 2
    ensures SampleVariance(Affine(xs, c, d)) == Reals.Times(c * c, SampleVariance(xs))
  {
    var ys, m := Affine(xs, c, d), Mean(xs);
    MeanAffine(xs, c, d);
    CrossSumAffine(xs, m, c, d, ys, Mean(ys));
    CrossSumCommutes(xs, m, ys, Mean(ys));
    CrossSumAffine(xs, m, c, d, xs, m);
    MomentsAreAverages(xs, xs);
    MomentsAreAverages(ys, ys);
    var sum := CrossSum(xs, m, xs, m);
    assert Reals.Times(c, Reals.Times(c, sum)) == Reals.Times(c * c, sum);
    hide Mean, Affine, SampleVariance, CrossSum, Line, Reals.Times, Covariance;
    ScaledAverage(SampleVariance(ys), SampleVariance(xs), c * c, (|xs| - 1) as real, sum);
  }

  lemma ActiveAffine(xs: seq<real>, c: real, d: real)
    ensures Active(Affine(xs, c, d), xs) == Affine(xs, c - 1.0, d)
  {
    forall k | 0 <= k < |xs| ensures Active(Affine(xs, c, d), xs)[k] == Affine(xs, c - 1.0, d)[k] {
      LineLessItself(c, d, xs[k]);
    }
    hide Line;
  }

  lemma LineLessItself(c: real, d: real, x: real)
    ensures Line(c, d, x) - x == Line(c - 1.0, d, x)
  {
  }

  /**
   * A strategy that returns `c` times its benchmark plus `d` a day has beta c, an annual alpha of 252 * (d + (c - 1) *
   * the daily risk-free rate), and an active variance of (c - 1)^2 times the benchmark's.
   */
  lemma LeveredComparison(xs: seq<real>, c: real, d: real, riskFreeRate: real)
    requires |xs| >= 2 && Covariance(xs, xs) > 0.0
    ensures var levered := RelativeMetrics(Affine(xs, c, d), xs, riskFreeRate);
            && levered.Relative? && levered.beta == c
            && levered.alpha == (d + (c - 1.0) * (riskFreeRate / 252.0)) * 252.0
            && levered.activeVariance == ((c - 1.0) * (c - 1.0)) * SampleVariance(xs)
  {
    CovarianceAffine(xs, c, d);
    MeanAffine(xs, c, d);
    ActiveAffine(xs, c, d);
    SampleVarianceAffine(xs, c - 1.0, d);
    BetaIs(c, Covariance(xs, xs));
    hide Mean, Affine, SampleVariance, Covariance, Active;
    AlphaIs(c, d, Mean(xs), riskFreeRate / 252.0);
  }

  lemma BetaIs(c: real, v: real)
    requires v > 0.0
    ensures Reals.Times(c, v) / v == c
  {
    Reals.QuotientIs(c * v, v, c);
  }

  lemma AlphaIs(c: real, d: real, m: real, r: real)
    ensures ((Line(c, d, m) - r) - c * (m - r)) * 252.0 == (d + (c - 1.0) * r) * 252.0
  {
    assert c * (m - r) == c * m - c * r;
    assert (c - 1.0) * r == c * r - r;
  }

  /** Against a benchmark that never moves, beta is zero and alpha the mean excess return; unequal or too short series
      are not compared. */
  lemma FlatComparison(ys: seq<real>, xs: seq<real>, riskFreeRate: real)
    ensures RelativeMetrics(ys, xs, riskFreeRate).NotComparable? <==> |ys| != |xs| || |ys| < 2
    ensures |ys| == |xs| >= 2 && Covariance(xs, xs) <= 0.0 ==>
              && RelativeMetrics(ys, xs, riskFreeRate).beta == 0.0
              && RelativeMetrics(ys, xs, riskFreeRate).alpha == (Mean(ys) - riskFreeRate / 252.0) * 252.0
  {
    hide Mean, Covariance, SampleVariance, Active;
  }

  /** The baseline buys exactly the universe names priced on the first fill day, in equal parts of its equity. */
  lemma BaselineSplitsAmongThePriced(panel: Panel, symbols: seq<Symbol>, index: nat, h: Hold)
    requires exists s, price :: s in symbols && ClosesAt(panel, s, index, price)
    ensures var held := HoldBuy(panel, symbols, index, Some(index), h).held;
            && |held| > 0
            && (forall e :: e in held ==>
                  && e.symbol in symbols && (exists price :: ClosesAt(panel, e.symbol, index, price))
                  && e.amount * |held| as real == h.equity)
            && (forall s, price :: s in symbols && ClosesAt(panel, s, index, price) ==> Has(held, s))
  {
    var s, price :| s in symbols && ClosesAt(panel, s, index, price);
    PricedAreTheClosing(panel, symbols, index);
    var priced := PricedAt(panel, symbols, index);
    assert s in priced;
    hide PricedAt, ClosesAt;
    var held := EqualSplit(priced, h.equity);
    forall e | e in held
      ensures e.symbol in priced && e.amount * |held| as real == h.equity
    {
      var k :| 0 <= k < |held| && held[k] == e;
      assert priced[k] in priced;
    }
    forall s | s in priced ensures Has(held, s) {
      var k :| 0 <= k < |priced| && priced[k] == s;
      assert held[k] in held;
    }
  }

  lemma {:induction false} PricedAreTheClosing(panel: Panel, symbols: seq<Symbol>, index: nat)
    ensures forall s :: s in PricedAt(panel, symbols, index) <==>
              s in symbols && exists price :: ClosesAt(panel, s, index, price)
  {
    if |symbols| > 0 {
      var front, last := symbols[..|symbols| - 1], symbols[|symbols| - 1];
      PricedAreTheClosing(panel, front, index);
      assert symbols == front + [last];
      var bar := Bar(panel, last, index);
      if bar.Some? {
        BarIsTheClose(panel, last, index, bar.value);
      } else {
        forall price ensures !ClosesAt(panel, last, index, price) {
          BarIsTheClose(panel, last, index, price);
        }
      }
      hide Bar, ClosesAt;
    }
  }

  // Drawdown

  predicate AllAboveZero(curve: seq<real>) {
    forall v :: v in curve ==> v > 0.0
  }

  /** The fall from point `i` to the later point `j`. */
  function Fall(curve: seq<real>, i: nat, j: nat): real
    requires i <= j < |curve| && AllAboveZero(curve)
  {
    assert curve[i] in curve;
    curve[j] / curve[i] - 1.0
  }

  /** `d` is the worst fall between any two points in order. */
  ghost predicate IsWorstFall(curve: seq<real>, d: real)
    requires AllAboveZero(curve)
  {
    && (forall i, j :: 0 <= i <= j < |curve| ==> d <= Fall(curve, i, j))
    && (|curve| > 0 ==> exists i, j :: 0 <= i <= j < |curve| && d == Fall(curve, i, j))
    && (|curve| == 0 ==> d == 0.0)
  }

  lemma FallFromThePeak(curve: seq<real>, peak: nat, i: nat, j: nat)
    requires AllAboveZero(curve) && peak <= j && i <= j < |curve| && curve[i] <= curve[peak]
    ensures Fall(curve, peak, j) <= Fall(curve, i, j)
  {
    var x, a, p := curve[j], curve[i], curve[peak];
    assert x in curve && a in curve && p in curve;
    var high, low := x / a, x / p;
    assert high * a == x && low * p == x;
    Reals.ProductSign(high, p - a) by {
      Reals.FactorSign(high, a);
    }
    assert (high - low) * p == high * (p - a);
    Reals.FactorSign(high - low, p);
  }

  datatype Scan = Scan(peak: Option<real>, drawdown: real)

  /** What the loop knows after a curve: the highest value and the worst fall from a peak. */
  function Scanned(curve: seq<real>): Scan {
    if |curve| == 0 then Scan(None, 0.0)
    else
      var before, value := Scanned(curve[..|curve| - 1]), curve[|curve| - 1];
      var peak := if before.peak.None? || value > before.peak.value then value else before.peak.value;
      Scan(Some(peak), if peak > 0.0 then Reals.Min(before.drawdown, value / peak - 1.0) else before.drawdown)
  }

  /** The one-pass loop: for a positive curve it finds the worst of all pairwise falls, which lies in (-1, 0]. */
  method MaxDrawdown(curve: seq<real>) returns (maxDrawdown: real)
    ensures AllAboveZero(curve) ==> IsWorstFall(curve, maxDrawdown) && -1.0 < maxDrawdown <= 0.0
    ensures maxDrawdown == Scanned(curve).drawdown
  {
    var peak: Option<real> := None;
    ghost var at, from, to := 0, 0, 0;
    maxDrawdown := 0.0;
    for n := 0 to |curve|
      invariant Scan(peak, maxDrawdown) == Scanned(curve[..n])
      invariant n == 0 ==> peak.None? && maxDrawdown == 0.0
      invariant n > 0 ==> at < n && peak == Some(curve[at])
      invariant forall i :: 0 <= i < n ==> curve[i] <= curve[at]
      invariant AllAboveZero(curve) && n > 0 ==> from <= to < n && maxDrawdown == Fall(curve, from, to)
      invariant AllAboveZero(curve) ==> forall i, j :: 0 <= i <= j < n ==> maxDrawdown <= Fall(curve, i, j)
      invariant -1.0 < maxDrawdown <= 0.0 || !AllAboveZero(curve)
    {
      var value := curve[n];
      assert curve[..n + 1][..n] == curve[..n];
      if peak.None? || value > peak.value {
        peak := Some(value);
        at := n;
      }
      if peak.value > 0.0 {
        var fall := value / peak.value - 1.0;
        if n == 0 || fall < maxDrawdown {
          from, to := at, n;
        }
        maxDrawdown := Reals.Min(maxDrawdown, fall);
      }
      if AllAboveZero(curve) {
        assert curve[at] in curve && value in curve;
        FallRange(curve, at, n);
        forall i | 0 <= i <= n ensures Fall(curve, at, n) <= Fall(curve, i, n) {
          FallFromThePeak(curve, at, i, n);
        }
      }
    }
    assert curve[..|curve|] == curve;
  }

  lemma FallRange(curve: seq<real>, i: nat, j: nat)
    requires AllAboveZero(curve) && i <= j < |curve| && curve[j] <= curve[i]
    ensures -1.0 < Fall(curve, i, j) <= 0.0
    ensures i == j ==> Fall(curve, i, j) == 0.0
  {
    var x, p := curve[j], curve[i];
    assert x in curve && p in curve;
    Reals.DivideMonotone(x, p, p);
    assert (x / p) * p == x;
    Reals.StrictFactorSign(x / p, p);
  }
}
