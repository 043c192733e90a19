/** The value a rebalance trades, as one sum over all symbols. */
module LedgerLaws {
  import opened Ledger
  import Sorting

  /** The distance between a symbol's wanted value and its held one; a missing key counts as zero. */
  function GapOf(values: seq<Entry>, equity: real, target: seq<Entry>, symbol: Symbol): real {
    var gap := Get(target, symbol) * equity - Get(values, symbol);
    if gap < 0.0 then -gap else gap
  }

  function GapSum(symbols: seq<Symbol>, values: seq<Entry>, equity: real, target: seq<Entry>): real {
    if |symbols| == 0 then 0.0
    else GapSum(symbols[1..], values, equity, target) + GapOf(values, equity, target, symbols[0])
  }

  lemma {:induction false} GapSumConcat(
      a: seq<Symbol>, b: seq<Symbol>, values: seq<Entry>, equity: real, target: seq<Entry>)
    ensures GapSum(a + b, values, equity, target)
         == GapSum(a, values, equity, target) + GapSum(b, values, equity, target)
  {
    if |a| == 0 {
      assert a + b == b;
    } else {
      assert (a + b)[1..] == a[1..] + b;
      GapSumConcat(a[1..], b, values, equity, target);
    }
  }

  /** Symbols on which both dictionaries pairs agree contribute the same. */
  lemma {:induction false} GapSumSame(
      symbols: seq<Symbol>, values: seq<Entry>, equity: real, target: seq<Entry>, values': seq<Entry>,
      target': seq<Entry>)
    requires forall s :: s in symbols ==> Get(values, s) == Get(values', s) && Get(target, s) == Get(target', s)
    ensures GapSum(symbols, values, equity, target) == GapSum(symbols, values', equity, target')
  {
    if |symbols| > 0 {
      assert symbols[0] in symbols;
      assert GapOf(values, equity, target, symbols[0]) == GapOf(values', equity, target', symbols[0]);
      hide Get, GapOf;
      GapSumSame(symbols[1..], values, equity, target, values', target');
    }
  }

  lemma {:induction false} GapSumOfNothing(symbols: seq<Symbol>, equity: real)
    ensures GapSum(symbols, [], equity, []) == 0.0
  {
    if |symbols| > 0 {
      GapSumOfNothing(symbols[1..], equity);
    }
  }

  /** A list split at one of its members. */
  lemma SplitAt(symbols: seq<Symbol>, symbol: Symbol) returns (before: seq<Symbol>, after: seq<Symbol>)
    requires Sorting.Distinct(symbols) && symbol in symbols
    ensures symbols == before + [symbol] + after && symbol !in before && symbol !in after
  {
    var k :| 0 <= k < |symbols| && symbols[k] == symbol;
    before, after := symbols[..k], symbols[k + 1..];
  }

  /** Changing the dictionaries at one symbol changes the sum by that symbol's gap alone. */
  lemma GapSumChangesAt(
      symbols: seq<Symbol>, symbol: Symbol, values: seq<Entry>, equity: real, target: seq<Entry>,
      values': seq<Entry>, target': seq<Entry>)
    requires Sorting.Distinct(symbols) && symbol in symbols
    requires forall s :: s != symbol ==> Get(values, s) == Get(values', s) && Get(target, s) == Get(target', s)
    ensures GapSum(symbols, values, equity, target) - GapOf(values, equity, target, symbol)
         == GapSum(symbols, values', equity, target') - GapOf(values', equity, target', symbol)
  {
    hide Get, GapOf;
    var before, after := SplitAt(symbols, symbol);
    GapSumSame(before, values, equity, target, values', target');
    GapSumSame(after, values, equity, target, values', target');
    GapSumSplit(before, symbol, after, values, equity, target);
    GapSumSplit(before, symbol, after, values', equity, target');
  }

  lemma GapSumSplit(
      before: seq<Symbol>, symbol: Symbol, after: seq<Symbol>, values: seq<Entry>, equity: real, target: seq<Entry>)
    ensures GapSum(before + [symbol] + after, values, equity, target)
         == GapSum(before, values, equity, target) + GapOf(values, equity, target, symbol)
            + GapSum(after, values, equity, target)
  {
    hide GapOf;
    GapSumConcat(before + [symbol], after, values, equity, target);
    GapSumConcat(before, [symbol], values, equity, target);
    assert [symbol][1..] == [];
  }

  lemma LastIsNew(entries: seq<Entry>)
    requires DistinctSymbols(entries) && |entries| > 0
    ensures !Has(entries[..|entries| - 1], entries[|entries| - 1].symbol)
    ensures DistinctSymbols(entries[..|entries| - 1])
    ensures entries == entries[..|entries| - 1] + [entries[|entries| - 1]]
  {
  }

  /** The last item of a dictionary adds its own amount and nothing else. */
  lemma LastGets(entries: seq<Entry>)
    requires DistinctSymbols(entries) && |entries| > 0
    ensures var front, last := entries[..|entries| - 1], entries[|entries| - 1];
            && (forall s :: Get(entries, s) == if s == last.symbol then last.amount else Get(front, s))
            && Get(front, last.symbol) == 0.0
  {
    var front, last := entries[..|entries| - 1], entries[|entries| - 1];
    LastIsNew(entries);
    forall s ensures Get(entries, s) == if s == last.symbol then last.amount else Get(front, s) {
      GetAppend(front, last, s);
    }
    GetAbsent(front, last.symbol);
  }

  lemma DroppedLast(values: seq<Entry>, target: seq<Entry>)
    requires |values| > 0
    ensures var last := values[|values| - 1];
            Dropped(values, target) == Dropped(values[..|values| - 1], target)
              + (if Has(target, last.symbol) then 0.0 else Abs(0.0 - last.amount))
  {
    hide Has;
  }

  lemma GapOfUntargeted(values: seq<Entry>, equity: real, target: seq<Entry>, symbol: Symbol)
    requires Get(target, symbol) == 0.0
    ensures GapOf(values, equity, target, symbol) == Abs(0.0 - Get(values, symbol))
  {
    hide Get;
    assert 0.0 * equity == 0.0;
  }

  /** Without a target everything held is sold. */
  lemma {:induction false} SellingAll(symbols: seq<Symbol>, values: seq<Entry>, equity: real)
    requires DistinctSymbols(values) && Sorting.Distinct(symbols)
    requires forall e :: e in values ==> e.symbol in symbols
    ensures Dropped(values, []) == GapSum(symbols, values, equity, [])
  {
    if |values| == 0 {
      GapSumOfNothing(symbols, equity);
    } else {
      hide Dropped, GapSum, GapOf, Get;
      var front, last := values[..|values| - 1], values[|values| - 1];
      LastIsNew(values);
      LastGets(values);
      NothingIsNamed(last.symbol);
      assert last in values && forall e :: e in front ==> e in values;
      SellingAll(symbols, front, equity);
      DroppedLast(values, []);
      GapOfUntargeted(values, equity, [], last.symbol);
      GapOfUntargeted(front, equity, [], last.symbol);
      GapSumChangesAt(symbols, last.symbol, values, equity, [], front, []);
    }
  }

  lemma NothingIsNamed(symbol: Symbol)
    ensures Get([], symbol) == 0.0 && !Has([], symbol)
  {
  }

  lemma HasAppend(entries: seq<Entry>, last: Entry)
    ensures forall s :: Has(entries + [last], s) <==> Has(entries, s) || s == last.symbol
  {
    assert last in entries + [last];
    assert forall e :: e in entries ==> e in entries + [last];
  }

  /** Naming one more symbol in the target keeps its holding from being sold outright. */
  lemma {:induction false} NamingKeeps(values: seq<Entry>, target: seq<Entry>, named: Entry)
    requires DistinctSymbols(values) && !Has(target, named.symbol)
    ensures Dropped(values, target + [named]) == Dropped(values, target) - Abs(0.0 - Get(values, named.symbol))
  {
    if |values| > 0 {
      hide Dropped, Get, Has;
      var front, last := values[..|values| - 1], values[|values| - 1];
      LastIsNew(values);
      LastGets(values);
      HasAppend(target, named);
      NamingKeeps(front, target, named);
      DroppedLast(values, target);
      DroppedLast(values, target + [named]);
    }
  }

  lemma TargetGapIsTheGap(values: seq<Entry>, equity: real, target: seq<Entry>, named: Entry)
    requires Get(target, named.symbol) == named.amount
    ensures TargetGap(values, equity, named) == GapOf(values, equity, target, named.symbol)
  {
    hide Get;
  }

  /** The value a rebalance trades is the sum, over the union of both key sets, of |target weight * equity - held|. */
  lemma {:induction false} TradedIsTheGapSum(
      symbols: seq<Symbol>, values: seq<Entry>, equity: real, target: seq<Entry>)
    requires DistinctSymbols(values) && DistinctSymbols(target) && Sorting.Distinct(symbols)
    requires forall e :: e in values || e in target ==> e.symbol in symbols
    ensures TradedValue(values, equity, target) == GapSum(symbols, values, equity, target)
  {
    if |target| == 0 {
      SellingAll(symbols, values, equity);
    } else {
      hide Dropped, GapSum, GapOf, Get, Has, TargetGap;
      var front, last := target[..|target| - 1], target[|target| - 1];
      LastIsNew(target);
      LastGets(target);
      assert last in target && forall e :: e in front ==> e in target;
      TradedIsTheGapSum(symbols, values, equity, front);
      NamingKeeps(values, front, last);
      TargetGapIsTheGap(values, equity, target, last);
      GapOfUntargeted(values, equity, front, last.symbol);
      GapSumChangesAt(symbols, last.symbol, values, equity, target, values, front);
    }
  }

  /** A rebalance charges the rate on exactly that sum. */
  lemma RebalanceChargesTheGaps(
      symbols: seq<Symbol>, values: seq<Entry>, cash: real, equity: real, target: seq<Entry>, costRate: real)
    requires equity > 0.0 && DistinctSymbols(values) && DistinctSymbols(target) && Sorting.Distinct(symbols)
    requires forall e :: e in values || e in target ==> e.symbol in symbols
    ensures var after := ApplyTarget(values, cash, equity, target, costRate);
            && after.turnover * equity == GapSum(symbols, values, equity, target)
            && after.equity == equity - costRate * GapSum(symbols, values, equity, target)
  {
    hide TradedValue, GapSum, Sum, Scale, Positive;
    TradedIsTheGapSum(symbols, values, equity, target);
    DivideBack(TradedValue(values, equity, target), equity);
  }

  lemma DivideBack(x: real, y: real)
    requires y > 0.0
    ensures (x / y) * y == x
  {
  }
}
