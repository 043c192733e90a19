/** The simulated book: dictionaries of amounts per symbol, their exact sums, and the trade to a target. */
module Ledger {
  import Reals

  type Symbol = string

  /** One item of an insertion-ordered dictionary from symbols to amounts. */
  datatype Entry = Entry(symbol: Symbol, amount: real)

  ghost predicate DistinctSymbols(entries: seq<Entry>) {
    forall i, j :: 0 <= i < j < |entries| ==> entries[i].symbol != entries[j].symbol
  }

  ghost predicate AllPositive(entries: seq<Entry>) {
    forall e :: e in entries ==> e.amount > 0.0
  }

  predicate Has(entries: seq<Entry>, symbol: Symbol) {
    exists e :: e in entries && e.symbol == symbol
  }

  function Abs(x: real): real {
    if x < 0.0 then -x else x
  }

  /** The exact sum of a dictionary's amounts. */
  function Sum(entries: seq<Entry>): real {
    if |entries| == 0 then 0.0 else Sum(entries[..|entries| - 1]) + entries[|entries| - 1].amount
  }

  /** The amount stored for a symbol, zero when there is none. */
  function Get(entries: seq<Entry>, symbol: Symbol): real {
    if |entries| == 0 then 0.0
    else if entries[0].symbol == symbol then entries[0].amount
    else Get(entries[1..], symbol)
  }

  function Remove(entries: seq<Entry>, symbol: Symbol): (rest: seq<Entry>)
    ensures forall e :: e in rest <==> e in entries && e.symbol != symbol
  {
    if |entries| == 0 then []
    else if entries[0].symbol == symbol then Remove(entries[1..], symbol)
    else [entries[0]] + Remove(entries[1..], symbol)
  }

  /** Every amount multiplied by one factor. */
  function Scale(entries: seq<Entry>, factor: real): (scaled: seq<Entry>)
    ensures |scaled| == |entries|
  {
    seq(|entries|, i requires 0 <= i < |entries| => entries[i].(amount := entries[i].amount * factor))
  }

  /** The items a dictionary comprehension with `weight > 0` keeps. */
  function Positive(entries: seq<Entry>): (kept: seq<Entry>)
    ensures forall e :: e in kept <==> e in entries && e.amount > 0.0
  {
    if |entries| == 0 then []
    else if entries[|entries| - 1].amount > 0.0 then Positive(entries[..|entries| - 1]) + [entries[|entries| - 1]]
    else Positive(entries[..|entries| - 1])
  }

  // Sums

  lemma {:induction false} SumConcat(a: seq<Entry>, b: seq<Entry>)
    ensures Sum(a + b) == Sum(a) + Sum(b)
  {
    if |b| == 0 {
      assert a + b == a;
    } else {
      assert (a + b)[..|a + b| - 1] == a + b[..|b| - 1];
      SumConcat(a, b[..|b| - 1]);
    }
  }

  lemma SumFront(a: seq<Entry>)
    requires |a| > 0
    ensures Sum(a) == a[0].amount + Sum(a[1..])
  {
    assert a == [a[0]] + a[1..];
    SumConcat([a[0]], a[1..]);
    assert Sum([a[0]]) == a[0].amount;
  }

  lemma ScaleFront(a: seq<Entry>, factor: real)
    requires |a| > 0
    ensures Scale(a, factor)[..|a| - 1] == Scale(a[..|a| - 1], factor)
  {
    var front := a[..|a| - 1];
    forall i | 0 <= i < |front| ensures Scale(a, factor)[i] == Scale(front, factor)[i] {
      assert front[i] == a[i];
    }
  }

  lemma {:induction false} SumScale(a: seq<Entry>, factor: real)
    ensures Sum(Scale(a, factor)) == Sum(a) * factor
  {
    if |a| > 0 {
      ScaleFront(a, factor);
      SumScale(a[..|a| - 1], factor);
    }
  }

  lemma {:induction false} SumPositive(a: seq<Entry>)
    requires AllPositive(a)
    ensures Sum(a) >= 0.0
    ensures |a| > 0 ==> Sum(a) > 0.0
  {
    if |a| > 0 {
      assert a[|a| - 1] in a;
      SumPositive(a[..|a| - 1]);
    }
  }

  lemma {:induction false} GetAbsent(a: seq<Entry>, symbol: Symbol)
    requires !Has(a, symbol)
    ensures Get(a, symbol) == 0.0
    ensures Remove(a, symbol) == a
  {
    if |a| > 0 {
      assert a[0] in a;
      assert forall e :: e in a[1..] ==> e in a;
      GetAbsent(a[1..], symbol);
      assert a == [a[0]] + a[1..];
    }
  }

  lemma {:induction false} GetAt(a: seq<Entry>, k: nat)
    requires DistinctSymbols(a) && k < |a|
    ensures Get(a, a[k].symbol) == a[k].amount
  {
    if k > 0 {
      GetAt(a[1..], k - 1);
    }
  }

  /** A positive dictionary answers positive exactly for the symbols it has. */
  lemma GetPositive(a: seq<Entry>, symbol: Symbol)
    requires DistinctSymbols(a) && AllPositive(a)
    ensures Has(a, symbol) <==> Get(a, symbol) > 0.0
    ensures Get(a, symbol) >= 0.0
  {
    if Has(a, symbol) {
      var k :| 0 <= k < |a| && a[k].symbol == symbol;
      GetAt(a, k);
      assert a[k] in a;
    } else {
      GetAbsent(a, symbol);
    }
  }

  /** Deleting a key takes its amount, and nothing else, out of the sum. */
  lemma RemoveSum(a: seq<Entry>, symbol: Symbol)
    requires DistinctSymbols(a)
    ensures Sum(Remove(a, symbol)) == Sum(a) - Get(a, symbol)
    ensures DistinctSymbols(Remove(a, symbol))
    ensures !Has(Remove(a, symbol), symbol)
  {
    RemoveKeepsDistinct(a, symbol);
    RemovedSum(a, symbol);
  }

  lemma {:induction false} RemoveKeepsDistinct(a: seq<Entry>, symbol: Symbol)
    requires DistinctSymbols(a)
    ensures DistinctSymbols(Remove(a, symbol))
  {
    if |a| > 0 {
      RemoveKeepsDistinct(a[1..], symbol);
      var rest := Remove(a[1..], symbol);
      forall k | 0 <= k < |rest| ensures rest[k].symbol != a[0].symbol {
        assert rest[k] in rest;
      }
    }
  }

  lemma {:induction false} RemovedSum(a: seq<Entry>, symbol: Symbol)
    requires DistinctSymbols(a)
    ensures Sum(Remove(a, symbol)) == Sum(a) - Get(a, symbol)
  {
    if |a| > 0 {
      SumFront(a);
      var rest := a[1..];
      if a[0].symbol == symbol {
        assert !Has(rest, symbol);
        GetAbsent(rest, symbol);
      } else {
        RemovedSum(rest, symbol);
        SumConcat([a[0]], Remove(rest, symbol));
        assert Sum([a[0]]) == a[0].amount;
      }
    }
  }

  lemma {:induction false} PositiveKeepsDistinct(a: seq<Entry>)
    requires DistinctSymbols(a)
    ensures DistinctSymbols(Positive(a))
  {
    if |a| > 0 {
      PositiveKeepsDistinct(a[..|a| - 1]);
    }
  }

  lemma {:induction false} PositiveIsAll(a: seq<Entry>)
    requires AllPositive(a)
    ensures Positive(a) == a
  {
    if |a| > 0 {
      assert a[|a| - 1] in a;
      PositiveIsAll(a[..|a| - 1]);
      assert a == a[..|a| - 1] + [a[|a| - 1]];
    }
  }

  // Trading to a target

  /** What trading one target item costs in value: the gap between the wanted and the held amount. */
  function TargetGap(values: seq<Entry>, equity: real, target: Entry): real {
    Abs(target.amount * equity - Get(values, target.symbol))
  }

  function TargetGaps(values: seq<Entry>, equity: real, target: seq<Entry>): real {
    if |target| == 0 then 0.0
    else TargetGaps(values, equity, target[..|target| - 1]) + TargetGap(values, equity, target[|target| - 1])
  }

  /** The value of the holdings the target does not name, all of which is sold. */
  function Dropped(values: seq<Entry>, target: seq<Entry>): real {
    if |values| == 0 then 0.0
    else Dropped(values[..|values| - 1], target) +
         (if Has(target, values[|values| - 1].symbol) then 0.0 else Abs(0.0 - values[|values| - 1].amount))
  }

  /** The value traded over the union of both key sets, as the exact sum makes it in any order. */
  function TradedValue(values: seq<Entry>, equity: real, target: seq<Entry>): real {
    TargetGaps(values, equity, target) + Dropped(values, target)
  }

  datatype Traded = Traded(equity: real, cash: real, values: seq<Entry>, turnover: real)

  function ApplyTarget(values: seq<Entry>, cash: real, equity: real, target: seq<Entry>, costRate: real): Traded {
    if equity <= 0.0 then Traded(equity, cash, [], 0.0)
    else
      var tradedValue := TradedValue(values, equity, target);
      var equityAfter := equity - costRate * tradedValue;
      var newValues := Scale(Positive(target), equityAfter);
      Traded(equityAfter, equityAfter - Sum(newValues), newValues, tradedValue / equity)
  }

  /** Target weights as the selection produces them: distinct names, positive weights, at most fully invested. */
  ghost predicate LongOnly(target: seq<Entry>) {
    DistinctSymbols(target) && AllPositive(target) && Sum(target) <= 1.0
  }

  /** The ledger identity: a long-only book worth exactly its cash and its holdings. */
  ghost predicate Balanced(values: seq<Entry>, cash: real, equity: real) {
    && DistinctSymbols(values)
    && AllPositive(values)
    && cash >= 0.0
    && equity > 0.0
    && equity == cash + Sum(values)
  }

  function HeldByTarget(values: seq<Entry>, target: seq<Entry>): real {
    if |target| == 0 then 0.0
    else HeldByTarget(values, target[..|target| - 1]) + Get(values, target[|target| - 1].symbol)
  }

  lemma {:induction false} GapsBound(values: seq<Entry>, equity: real, target: seq<Entry>)
    requires DistinctSymbols(values) && AllPositive(values) && equity > 0.0 && AllPositive(target)
    ensures 0.0 <= TargetGaps(values, equity, target) <= Reals.Times(equity, Sum(target)) + HeldByTarget(values, target)
  {
    hide Reals.Times, Get, TargetGap;
    Reals.TimesAdds(equity, 0.0, 0.0);
    if |target| > 0 {
      var front, last := target[..|target| - 1], target[|target| - 1];
      assert last in target;
      GapsBound(values, equity, front);
      GapBound(values, equity, last);
      Reals.TimesAdds(equity, Sum(front), last.amount);
    }
  }

  lemma GapBound(values: seq<Entry>, equity: real, t: Entry)
    requires DistinctSymbols(values) && AllPositive(values) && equity > 0.0 && t.amount > 0.0
    ensures 0.0 <= TargetGap(values, equity, t) <= Reals.Times(equity, t.amount) + Get(values, t.symbol)
  {
    GetPositive(values, t.symbol);
    hide Get;
    assert t.amount * equity > 0.0;
  }

  /** Each holding is either named by the target or dropped, so the two parts add up to the book. */
  lemma {:induction false} HeldOrDropped(values: seq<Entry>, target: seq<Entry>)
    requires DistinctSymbols(values) && AllPositive(values) && DistinctSymbols(target)
    ensures HeldByTarget(values, target) + Dropped(values, target) == Sum(values)
    ensures Dropped(values, target) >= 0.0
  {
    if |values| == 0 {
      NothingHeld(target);
    } else {
      var front, last := values[..|values| - 1], values[|values| - 1];
      assert last in values;
      HeldOrDropped(front, target);
      HeldByTargetStep(front, last, target);
      assert values == front + [last];
    }
  }

  lemma {:induction false} NothingHeld(target: seq<Entry>)
    ensures HeldByTarget([], target) == 0.0
  {
    if |target| > 0 {
      NothingHeld(target[..|target| - 1]);
    }
  }

  lemma {:induction false} GetAppend(a: seq<Entry>, last: Entry, symbol: Symbol)
    requires !Has(a, last.symbol)
    ensures Get(a + [last], symbol) == if symbol == last.symbol then last.amount else Get(a, symbol)
  {
    if |a| > 0 {
      assert a[0] in a;
      assert forall e :: e in a[1..] ==> e in a;
      assert (a + [last])[1..] == a[1..] + [last];
      GetAppend(a[1..], last, symbol);
    }
  }

  lemma {:induction false} HeldByTargetStep(front: seq<Entry>, last: Entry, target: seq<Entry>)
    requires DistinctSymbols(front + [last]) && DistinctSymbols(target)
    ensures HeldByTarget(front + [last], target)
         == HeldByTarget(front, target) + if Has(target, last.symbol) then last.amount else 0.0
  {
    assert !Has(front, last.symbol) by {
      forall e | e in front ensures e.symbol != last.symbol {
        var k :| 0 <= k < |front| && front[k] == e;
        assert (front + [last])[k] == e && (front + [last])[|front|] == last;
      }
    }
    if |target| > 0 {
      var rest, t := target[..|target| - 1], target[|target| - 1];
      HeldByTargetStep(front, last, rest);
      GetAppend(front, last, t.symbol);
      if t.symbol == last.symbol {
        assert t in target && Has(target, last.symbol);
        assert !Has(rest, last.symbol);
        assert !Has(front, t.symbol);
        GetAbsent(front, t.symbol);
      } else {
        assert Has(target, last.symbol) <==> Has(rest, last.symbol) by {
          assert target == rest + [t];
        }
      }
    }
  }

  /** A rebalance trades at most twice the book: at worst it sells everything and buys everything. */
  lemma TradedAtMostTwice(values: seq<Entry>, cash: real, equity: real, target: seq<Entry>)
    requires Balanced(values, cash, equity) && LongOnly(target)
    ensures 0.0 <= TradedValue(values, equity, target) <= 2.0 * equity
  {
    hide Sum, TargetGaps, Dropped, HeldByTarget;
    GapsBound(values, equity, target);
    HeldOrDropped(values, target);
    ShareBound(Sum(target), equity);
  }

  lemma ShareBound(share: real, whole: real)
    requires share <= 1.0 && whole >= 0.0
    ensures share * whole <= whole
  {
  }

  /** Cost and turnover of a trade of value `traded`, as plain arithmetic. */
  lemma ChargeBounds(traded: real, equity: real, costRate: real)
    requires equity > 0.0 && 0.0 <= traded <= 2.0 * equity && 0.0 <= costRate < 0.5
    ensures 0.0 <= traded / equity <= 2.0
    ensures equity - costRate * traded == equity * (1.0 - costRate * (traded / equity))
    ensures equity - costRate * traded > 0.0
  {
    var turnover := traded / equity;
    assert traded == turnover * equity;
    assert turnover < 0.0 ==> turnover * equity < 0.0;
    assert (turnover - 2.0) > 0.0 ==> (turnover - 2.0) * equity > 0.0;
    CostLeavesEquity(traded, equity, costRate);
  }

  lemma CostLeavesEquity(traded: real, equity: real, costRate: real)
    requires equity > 0.0 && 0.0 <= traded <= 2.0 * equity && 0.0 <= costRate < 0.5
    ensures equity - costRate * traded > 0.0
  {
    assert costRate * (2.0 * equity - traded) >= 0.0;
    assert (0.5 - costRate) * equity > 0.0;
  }

  lemma ScaleKeeps(a: seq<Entry>, factor: real)
    requires DistinctSymbols(a) && AllPositive(a) && factor > 0.0
    ensures DistinctSymbols(Scale(a, factor)) && AllPositive(Scale(a, factor))
  {
    forall e | e in Scale(a, factor) ensures e.amount > 0.0 {
      var k :| 0 <= k < |a| && Scale(a, factor)[k] == e;
      assert a[k] in a;
    }
  }

  /** A rebalance keeps the ledger identity, lands on the target weights and charges exactly its turnover. */
  lemma ApplyTargetBalances(values: seq<Entry>, cash: real, equity: real, target: seq<Entry>, costRate: real)
    requires Balanced(values, cash, equity) && LongOnly(target) && 0.0 <= costRate < 0.5
    ensures var after := ApplyTarget(values, cash, equity, target, costRate);
            && Balanced(after.values, after.cash, after.equity)
            && after.values == Scale(target, after.equity)
            && 0.0 <= after.turnover <= 2.0
            && after.equity == equity * (1.0 - costRate * after.turnover)
  {
    hide Sum, TradedValue, Scale, Positive;
    TradedAtMostTwice(values, cash, equity, target);
    PositiveIsAll(target);
    ChargeBounds(TradedValue(values, equity, target), equity, costRate);
    var equityAfter := ApplyTarget(values, cash, equity, target, costRate).equity;
    SumScale(target, equityAfter);
    ShareBound(Sum(target), equityAfter);
    ScaleKeeps(target, equityAfter);
  }
}
