/** What buying and holding is worth: the closed form of the baseline loop. */
module Basket {
  import opened Benchmark
  import opened Drift
  import opened Ledger
  import opened Market
  import opened Options

  /** What `start` put into a symbol at the close of day `from` is worth at the close of day `index`. */
  function Worth(panel: Panel, symbol: Symbol, start: real, from: nat, index: nat): real {
    if index <= from then start else Worth(panel, symbol, start, from, index - 1) * Growth(panel, symbol, index)
  }

  /** One unit split equally at the close of day `from`, as it stands on day `index`. */
  function HeldSince(panel: Panel, symbols: seq<Symbol>, from: nat, index: nat): (held: seq<Entry>)
    ensures |held| == |symbols|
  {
    var n := |symbols|;
    seq(n, k requires 0 <= k < n => Entry(symbols[k], Worth(panel, symbols[k], 1.0 / n as real, from, index)))
  }

  ghost predicate PricedThrough(panel: Panel, symbol: Symbol, from: nat, index: nat) {
    && symbol in panel.series && index < |panel.series[symbol]|
    && forall j :: from <= j <= index ==>
         panel.series[symbol][j].Some? && panel.series[symbol][j].value > 0.0
  }

  /** Worth per unit put in equals close per first close. */
  ghost predicate Follows(worth: real, start: real, first: real, current: real) {
    worth * first == start * current
  }

  /** While a symbol is priced every day its worth follows its close. */
  lemma {:induction false} WorthFollowsTheClose(panel: Panel, symbol: Symbol, start: real, from: nat, index: nat)
    requires from <= index && PricedThrough(panel, symbol, from, index)
    ensures var column := panel.series[symbol];
            Follows(Worth(panel, symbol, start, from, index), start, column[from].value, column[index].value)
  {
    if index > from {
      WorthFollowsTheClose(panel, symbol, start, from, index - 1);
      PricedGrowth(panel, symbol, from, index);
      WorthGrows(panel, symbol, start, from, index);
      hide Growth, Worth, Follows;
      var column := panel.series[symbol];
      CarryOver(Worth(panel, symbol, start, from, index), Worth(panel, symbol, start, from, index - 1),
        Growth(panel, symbol, index), column[index - 1].value, column[index].value, column[from].value, start);
    }
  }

  lemma CarryOver(
      after: real, before: real, growth: real, previous: real, current: real, first: real, start: real)
    requires after == before * growth && previous > 0.0 && growth == current / previous
    requires Follows(before, start, first, previous)
    ensures Follows(after, start, first, current)
  {
    var g := current / previous;
    assert g * previous == current;
    assert (before * g) * first == (before * first) * g;
    assert (start * previous) * g == start * (g * previous);
  }

  lemma PricedGrowth(panel: Panel, symbol: Symbol, from: nat, index: nat)
    requires from < index && PricedThrough(panel, symbol, from, index)
    ensures panel.series[symbol][index - 1].Some? && panel.series[symbol][index - 1].value > 0.0
    ensures Growth(panel, symbol, index) == panel.series[symbol][index].value / panel.series[symbol][index - 1].value
  {
  }

  lemma MarkingHolds(panel: Panel, symbols: seq<Symbol>, from: nat, index: nat)
    requires index > from
    ensures MarkValues(panel, HeldSince(panel, symbols, from, index - 1), index)
         == HeldSince(panel, symbols, from, index)
  {
    var before, after := HeldSince(panel, symbols, from, index - 1), HeldSince(panel, symbols, from, index);
    hide Growth;
    forall k | 0 <= k < |symbols| ensures MarkValues(panel, before, index)[k] == after[k] {
      WorthGrows(panel, symbols[k], 1.0 / |symbols| as real, from, index);
      assert before[k].amount == Worth(panel, symbols[k], 1.0 / |symbols| as real, from, index - 1);
    }
    hide MarkValues, HeldSince;
  }

  lemma WorthGrows(panel: Panel, symbol: Symbol, start: real, from: nat, index: nat)
    requires index > from
    ensures Worth(panel, symbol, start, from, index)
         == Worth(panel, symbol, start, from, index - 1) * Growth(panel, symbol, index)
  {
  }

  lemma SplittingBuys(panel: Panel, symbols: seq<Symbol>, from: nat)
    ensures EqualSplit(symbols, 1.0) == HeldSince(panel, symbols, from, from)
  {
  }

  /** The value of the baseline at the close of a day: one until it buys, then what the basket is worth. */
  function BaselineValue(panel: Panel, symbols: seq<Symbol>, firstFill: Option<nat>, index: nat): real {
    if firstFill.None? || index <= firstFill.value || PricedAt(panel, symbols, firstFill.value) == [] then 1.0
    else Sum(HeldSince(panel, PricedAt(panel, symbols, firstFill.value), firstFill.value, index))
  }

  /** What the baseline holds after the day `index`. */
  function BaselineHeld(panel: Panel, symbols: seq<Symbol>, firstFill: Option<nat>, index: nat): seq<Entry> {
    if firstFill.None? || index < firstFill.value then []
    else HeldSince(panel, PricedAt(panel, symbols, firstFill.value), firstFill.value, index)
  }

  lemma BaselineDay(panel: Panel, symbols: seq<Symbol>, firstFill: Option<nat>, index: nat, h: Hold)
    requires h.equity == if index == 0 then 1.0 else BaselineValue(panel, symbols, firstFill, index - 1)
    requires h.held == if index == 0 then [] else BaselineHeld(panel, symbols, firstFill, index - 1)
    ensures var after := HoldDay(panel, symbols, index, firstFill, h);
            && after.equity == BaselineValue(panel, symbols, firstFill, index)
            && after.held == BaselineHeld(panel, symbols, firstFill, index)
            && after.curve == h.curve + [after.equity]
  {
    hide Sum, PricedAt, HeldSince;
    assert MarkValues(panel, [], index) == [];
    if firstFill.Some? {
      var priced := PricedAt(panel, symbols, firstFill.value);
      SplittingBuys(panel, priced, firstFill.value);
      if index > firstFill.value {
        MarkingHolds(panel, priced, firstFill.value, index);
      }
    }
    hide MarkValues, EqualSplit;
  }

  /**
   * The baseline in closed form: worth one through the strategy's first fill, then one unit split equally among the
   * names priced that day, each part following its own closes.
   */
  lemma {:induction false} BaselineIsTheBasket(panel: Panel, symbols: seq<Symbol>, firstFill: Option<nat>, n: nat)
    ensures var h := HoldRun(panel, symbols, firstFill, n);
            && |h.curve| == n
            && (forall i :: 0 <= i < n ==> h.curve[i] == BaselineValue(panel, symbols, firstFill, i))
            && h.equity == (if n == 0 then 1.0 else BaselineValue(panel, symbols, firstFill, n - 1))
            && h.held == (if n == 0 then [] else BaselineHeld(panel, symbols, firstFill, n - 1))
  {
    hide HoldDay, BaselineValue, BaselineHeld;
    if n > 0 {
      BaselineIsTheBasket(panel, symbols, firstFill, n - 1);
      BaselineDay(panel, symbols, firstFill, n - 1, HoldRun(panel, symbols, firstFill, n - 1));
    }
  }
}
