/** The price panel a run reads and the parameters it runs under. */
module Market {
  import opened Calendar
  import opened Ledger
  import opened Options

  /** One column per symbol, one bar per date; a bar the snapshot cannot price is `None`. */
  datatype Panel = Panel(dates: seq<Date>, series: map<Symbol, seq<Option<real>>>)

  function Bar(panel: Panel, symbol: Symbol, index: int): Option<real> {
    if symbol in panel.series && 0 <= index < |panel.series[symbol]| then panel.series[symbol][index] else None
  }

  /** Every column has one bar per date. */
  ghost predicate Rectangular(panel: Panel) {
    forall s :: s in panel.series ==> |panel.series[s]| == |panel.dates|
  }

  /** The symbol's column holds a close for that day, and it is `price`. */
  ghost predicate ClosesAt(panel: Panel, symbol: Symbol, index: int, price: real) {
    symbol in panel.series && 0 <= index < |panel.series[symbol]| && panel.series[symbol][index] == Some(price)
  }

  ghost predicate PositivePrices(panel: Panel) {
    forall s, i :: s in panel.series && 0 <= i < |panel.series[s]| && panel.series[s][i].Some? ==>
      panel.series[s][i].value > 0.0
  }

  /** The same columns, with the same bars on the days 0, ..., t. */
  ghost predicate SameBarsThrough(a: Panel, b: Panel, t: nat)
    requires Rectangular(a) && Rectangular(b) && t < |a.dates| && t < |b.dates|
  {
    && (forall s :: s in a.series <==> s in b.series)
    && (forall s, i :: s in a.series && 0 <= i <= t ==> a.series[s][i] == b.series[s][i])
  }

  /** A bar is read from its own day. */
  lemma BarIsTheClose(panel: Panel, symbol: Symbol, index: int, price: real)
    ensures Bar(panel, symbol, index) == Some(price) <==> ClosesAt(panel, symbol, index, price)
  {
  }

  lemma SameBarsRead(a: Panel, b: Panel, t: nat, symbol: Symbol, index: int)
    requires Rectangular(a) && Rectangular(b) && t < |a.dates| && t < |b.dates|
    requires SameBarsThrough(a, b, t) && index <= t
    ensures Bar(a, symbol, index) == Bar(b, symbol, index)
  {
  }

  /** A filter on the raw trailing return; the operator is one of gt, gte, lt, lte. */
  datatype Gate = Gate(operator: string, threshold: real)

  datatype MomentumScale = RankScale | ReturnScale

  datatype CashPolicy = KeepCash | Extend

  datatype Params = Params(
    lookbackDays: nat, topN: nat, gates: seq<Gate>, maxWeight: real, costBps: real, stopLoss: Option<real>,
    signalWeight: real, requireClaimSupport: bool, scale: MomentumScale, lag: nat, cashPolicy: CashPolicy)

  const MAX_EXECUTION_LAG_DAYS := 5

  /** The ranges the committed spec and the run parameters are validated against. */
  predicate ValidParams(params: Params) {
    && params.lookbackDays >= 1
    && params.topN >= 1
    && 0.0 < params.maxWeight <= 1.0
    && 0.0 <= params.costBps <= 1000.0
    && (params.stopLoss.Some? ==> 0.0 < params.stopLoss.value <= 1.0)
    && 0.0 <= params.signalWeight <= 5.0
    && params.lag <= MAX_EXECUTION_LAG_DAYS
  }

  /** A cost of one basis point is a ten-thousandth of the value traded. */
  lemma CostRateIsInBasisPoints(params: Params)
    ensures CostRate(params) * 10000.0 == params.costBps
  {
  }

  function CostRate(params: Params): real {
    params.costBps / 10000.0
  }
}
