/** The stop loss over whole runs: one exit per falling name in flight, and processed within `lag` days. */
module StopLoss {
  import opened Calendar
  import opened Drift
  import opened Ledger
  import opened Market
  import opened Options
  import opened OrderQueue
  import opened Solvency
  import Sorting

  /** The names of the queued exits, in queue order. */
  function ExitNames(orders: seq<Order>): seq<Symbol> {
    if |orders| == 0 then []
    else
      var before, last := ExitNames(orders[..|orders| - 1]), orders[|orders| - 1];
      if last.StopExit? then before + [last.symbol] else before
  }

  /** `exitPending` is exactly the set of queued exits, and no name is queued twice. */
  ghost predicate ExitsTracked(pending: seq<Order>, exitPending: set<Symbol>) {
    && Sorting.Distinct(ExitNames(pending))
    && (forall s :: s in ExitNames(pending) <==> s in exitPending)
  }

  lemma {:induction false} ExitNamesConcat(a: seq<Order>, b: seq<Order>)
    ensures ExitNames(a + b) == ExitNames(a) + ExitNames(b)
  {
    if |b| == 0 {
      assert a + b == a;
    } else {
      assert (a + b)[..|a + b| - 1] == a + b[..|b| - 1];
      ExitNamesConcat(a, b[..|b| - 1]);
    }
  }

  lemma {:induction false} ExitNamesOfOrders(symbols: seq<Symbol>, executeAt: nat)
    ensures ExitNames(ExitOrders(symbols, executeAt)) == symbols
  {
    if |symbols| > 0 {
      var orders := ExitOrders(symbols, executeAt);
      assert orders[..|orders| - 1] == ExitOrders(symbols[..|symbols| - 1], executeAt);
      ExitNamesOfOrders(symbols[..|symbols| - 1], executeAt);
    }
  }

  lemma {:induction false} NewExitsAreNew(env: Env, index: nat, st: State, values: seq<Entry>)
    ensures Sorting.Distinct(NewExits(env, index, st, values))
    ensures forall s :: s in NewExits(env, index, st, values) <==>
              s !in st.exitPending && StopHit(env, index, st.entryPrice, s) && Has(values, s)
  {
    if |values| > 0 {
      var front, last := values[..|values| - 1], values[|values| - 1];
      NewExitsAreNew(env, index, st, front);
      assert forall s :: Has(values, s) <==> Has(front, s) || s == last.symbol by {
        assert values == front + [last];
        assert last in values;
        assert forall e :: e in front ==> e in values;
      }
    }
  }

  lemma IssuingKeepsTrack(env: Env, index: nat, st: State)
    requires WellFormed(env) && index < |env.panel.dates| && ExitsTracked(st.pending, st.exitPending)
    ensures var queued := IssueDecision(env, index, IssueStops(env, index, st));
            && ExitsTracked(queued.pending, queued.exitPending)
            && (forall s :: s in queued.exitPending <==>
                  s in st.exitPending || (StopHit(env, index, st.entryPrice, s) && Has(st.values, s)))
  {
    hide Decide, StopHit, NewExits, ExitOrders, ExitNames;
    var exits := NewExits(env, index, st, st.values);
    var orders := ExitOrders(exits, index + env.params.lag);
    NewExitsAreNew(env, index, st, st.values);
    ExitNamesOfOrders(exits, index + env.params.lag);
    ExitNamesConcat(st.pending, orders);
    DistinctConcat(ExitNames(st.pending), exits);
    DecisionNamesNoExit(st.pending + orders, Decide(env, index));
  }

  lemma DecisionNamesNoExit(orders: seq<Order>, decision: Order)
    requires decision.Rebalance?
    ensures ExitNames(orders + [decision]) == ExitNames(orders)
  {
  }

  lemma DistinctConcat(a: seq<Symbol>, b: seq<Symbol>)
    requires Sorting.Distinct(a) && Sorting.Distinct(b) && forall s :: s in b ==> s !in a
    ensures Sorting.Distinct(a + b)
    ensures forall s :: s in a + b <==> s in a || s in b
  {
    forall i, j | 0 <= i < j < |a + b| ensures (a + b)[i] != (a + b)[j] {
      if i < |a| <= j {
        assert a[i] in a && b[j - |a|] in b;
      }
    }
  }

  lemma {:induction false} FillAllClearsExits(env: Env, index: nat, st: State, due: seq<Order>)
    requires index < |env.panel.dates|
    ensures FillAll(env, index, st, due).exitPending == st.exitPending - set s | s in ExitNames(due)
  {
    if |due| > 0 {
      hide ApplyTarget, EntryPrices, Get, Remove;
      FillAllClearsExits(env, index, st, due[..|due| - 1]);
    }
  }

  /** Taking a prefix of a distinct, tracked queue off leaves the rest tracked. */
  lemma FillingKeepsTrack(due: seq<Order>, later: seq<Order>, exitPending: set<Symbol>)
    requires ExitsTracked(due + later, exitPending)
    ensures ExitsTracked(later, exitPending - set s | s in ExitNames(due))
  {
    ExitNamesConcat(due, later);
    hide ExitNames;
    var d, l := ExitNames(due), ExitNames(later);
    forall i, j | 0 <= i < j < |l| ensures l[i] != l[j] {
      assert (d + l)[|d| + i] == l[i] && (d + l)[|d| + j] == l[j];
    }
    forall s | s in l ensures s !in d {
      var j :| 0 <= j < |l| && l[j] == s;
      forall i | 0 <= i < |d| ensures d[i] != s {
        assert (d + l)[i] == d[i] && (d + l)[|d| + j] == s;
      }
    }
    assert forall s :: s in d + l <==> s in d || s in l;
  }

  lemma DueComesFirst(env: Env, t: nat)
    requires WellFormed(env) && t < |env.panel.dates|
    ensures Queued(env, t, Run(env, t)).pending == Due(env, t) + BeforeFills(env, t).pending
  {
    hide Issued, Run, Queued, DueBy, DueAfter, Oldest;
    QueueGainsIssued(env, t);
    QueueHoldsTheLastDays(env, t);
    DueIsOneDay(env, t);
    OldestMoves(env, t);
    assert Queued(env, t, Run(env, t)).pending == IssuedBetween(env, Oldest(env, t), t + 1);
    assert BeforeFills(env, t).pending == IssuedBetween(env, Oldest(env, t + 1), t + 1);
    hide BeforeFills, IssuedBetween;
    if t >= env.params.lag {
      FirstDayOff(env, Oldest(env, t), t + 1);
    }
  }

  lemma {:induction false} FirstDayOff(env: Env, lo: nat, hi: nat)
    requires WellFormed(env) && lo < hi <= |env.panel.dates|
    ensures IssuedBetween(env, lo, hi) == Issued(env, lo) + IssuedBetween(env, lo + 1, hi)
    decreases hi
  {
    hide Issued;
    if lo + 1 == hi {
      assert IssuedBetween(env, lo, lo) + Issued(env, lo) == Issued(env, lo) + IssuedBetween(env, hi, hi);
    } else {
      FirstDayOff(env, lo, hi - 1);
      assert (Issued(env, lo) + IssuedBetween(env, lo + 1, hi - 1)) + Issued(env, hi - 1)
          == Issued(env, lo) + (IssuedBetween(env, lo + 1, hi - 1) + Issued(env, hi - 1));
    }
  }

  /** Over every run `exitPending` names exactly the queued exits, each queued once. */
  lemma {:induction false} ExitsAreTracked(env: Env, n: nat)
    requires WellFormed(env) && n <= |env.panel.dates|
    ensures ExitsTracked(Run(env, n).pending, Run(env, n).exitPending)
  {
    hide Run, ExitsTracked;
    if n == 0 {
      NothingToTrack(env);
    } else {
      ExitsAreTracked(env, n - 1);
      DayKeepsTrack(env, n - 1);
    }
  }

  lemma NothingToTrack(env: Env)
    requires WellFormed(env)
    ensures ExitsTracked(Run(env, 0).pending, Run(env, 0).exitPending)
  {
  }

  lemma QueueIsTracked(env: Env, t: nat)
    requires WellFormed(env) && t < |env.panel.dates|
    requires ExitsTracked(Run(env, t).pending, Run(env, t).exitPending)
    ensures var queued := Queued(env, t, Run(env, t)); ExitsTracked(queued.pending, queued.exitPending)
  {
    hide Run, IssueStops, IssueDecision, ExitsTracked;
    MarkKeepsQueue(env, t, Run(env, t));
    hide Mark;
    IssuingKeepsTrack(env, t, Mark(env, t, Run(env, t)));
  }

  lemma MarkKeepsQueue(env: Env, t: nat, st: State)
    ensures Mark(env, t, st).pending == st.pending && Mark(env, t, st).exitPending == st.exitPending
  {
  }

  lemma DayKeepsTrack(env: Env, t: nat)
    requires WellFormed(env) && t < |env.panel.dates|
    requires ExitsTracked(Run(env, t).pending, Run(env, t).exitPending)
    ensures ExitsTracked(Run(env, t + 1).pending, Run(env, t + 1).exitPending)
  {
    hide Run, Queued, FillAll, Due, ExitsTracked, ExitNames;
    QueueIsTracked(env, t);
    DueComesFirst(env, t);
    DayFillsDue(env, t);
    var start, due := BeforeFills(env, t), Due(env, t);
    FillAllClearsExits(env, t, start, due);
    FillAllKeepsPending(env, t, start, due);
    FillingKeepsTrack(due, start.pending, start.exitPending);
  }

  // The bounded response

  lemma {:induction false} ExitIsQueued(orders: seq<Order>, s: Symbol)
    ensures s in ExitNames(orders) <==> exists o :: o in orders && o.StopExit? && o.symbol == s
  {
    if |orders| > 0 {
      var front, last := orders[..|orders| - 1], orders[|orders| - 1];
      ExitIsQueued(front, s);
      assert orders == front + [last];
    }
  }

  lemma StoppedNameHasOneExit(env: Env, t: nat, s: Symbol) returns (j: nat)
    requires Good(env) && t < |env.panel.dates|
    requires var st := Mark(env, t, Run(env, t)); Has(st.values, s) && StopHit(env, t, st.entryPrice, s)
    ensures var queue := Queued(env, t, Run(env, t)).pending;
            s in ExitNames(queue) && Sorting.Distinct(ExitNames(queue))
    ensures t <= j + env.params.lag && j <= t && StopExit(j + env.params.lag, s) in Issued(env, j)
  {
    hide Run, Mark, Queued, StopHit, Issued, WellFormed;
    var queue := Queued(env, t, Run(env, t)).pending;
    StoppedNameIsQueued(env, t, s);
    ExitIsQueued(queue, s);
    hide ExitNames;
    var o :| o in queue && o.StopExit? && o.symbol == s;
    j := QueuedWasIssued(env, t, o);
  }

  lemma QueuedWasIssued(env: Env, t: nat, o: Order) returns (j: nat)
    requires WellFormed(env) && t < |env.panel.dates| && o in Queued(env, t, Run(env, t)).pending
    ensures t <= j + env.params.lag && j <= t && o in Issued(env, j) && o.executeAt == j + env.params.lag
  {
    hide Run, Queued, Issued, Oldest, WellFormed;
    QueueGainsIssued(env, t);
    QueueHoldsTheLastDays(env, t);
    OldestMoves(env, t);
    assert Queued(env, t, Run(env, t)).pending == IssuedBetween(env, Oldest(env, t), t + 1);
    j := IssuedOn(env, Oldest(env, t), t + 1, o);
    IssuedIsDated(env, j);
  }

  lemma StoppedNameIsQueued(env: Env, t: nat, s: Symbol)
    requires Good(env) && t < |env.panel.dates|
    requires var st := Mark(env, t, Run(env, t)); Has(st.values, s) && StopHit(env, t, st.entryPrice, s)
    ensures var queue := Queued(env, t, Run(env, t)).pending;
            s in ExitNames(queue) && Sorting.Distinct(ExitNames(queue))
  {
    hide Run, Mark, StopHit, ExitNames, IssueStops, IssueDecision;
    ExitsAreTracked(env, t);
    MarkKeepsQueue(env, t, Run(env, t));
    IssuingKeepsTrack(env, t, Mark(env, t, Run(env, t)));
  }

  lemma {:induction false} IssuedOn(env: Env, lo: nat, hi: nat, o: Order) returns (j: nat)
    requires WellFormed(env) && hi <= |env.panel.dates| && o in IssuedBetween(env, lo, hi)
    ensures lo <= j < hi && o in Issued(env, j)
    decreases hi
  {
    hide Issued;
    if o in Issued(env, hi - 1) {
      j := hi - 1;
    } else {
      j := IssuedOn(env, lo, hi - 1, o);
    }
  }

  /** What selling `s` completely, if it is held, does to a book. */
  ghost predicate LeavesTheBook(env: Env, before: State, after: State, s: Symbol) {
    var held := Get(before.values, s);
    && before.equity > 0.0
    && !Has(after.values, s)
    && Sum(after.values) == Sum(before.values) - held
    && after.equity == before.equity - CostRate(env.params) * held
    && after.cash == before.cash + (held - CostRate(env.params) * held)
    && after.stopExits == before.stopExits + (if held > 0.0 then 1 else 0)
    && after.turnover == before.turnover + (if held > 0.0 then held / before.equity else 0.0)
  }

  /** Order `k` of day `t` is the exit of `s`, and processing it takes the name out of the book. */
  ghost predicate ExitedBy(env: Env, t: nat, k: nat, s: Symbol)
    requires WellFormed(env) && t < |env.panel.dates|
  {
    var due, start := Due(env, t), BeforeFills(env, t);
    && k < |due| && due[k] == StopExit(t, s)
    && LeavesTheBook(env, FillAll(env, t, start, due[..k]), FillAll(env, t, start, due[..k + 1]), s)
  }

  /** When an issued exit's day comes, processing it leaves the name out of the book and charges any sale. */
  lemma ExitIsProcessed(env: Env, j: nat, s: Symbol) returns (k: nat)
    requires Good(env) && j + env.params.lag < |env.panel.dates|
    requires StopExit(j + env.params.lag, s) in Issued(env, j)
    ensures ExitedBy(env, j + env.params.lag, k, s)
  {
    hide BeforeFills, Issued, Run, LeavesTheBook, FillAll, Sound, Due, FillExit, WellFormed;
    var t := j + env.params.lag;
    var due, start := Due(env, t), BeforeFills(env, t);
    DueIsIssued(env, j);
    k :| 0 <= k < |due| && due[k] == StopExit(t, s);
    EveryFillIsSound(env, t, k);
    NextFill(env, t, start, due, k);
    ExitLeavesTheBook(env, FillAll(env, t, start, due[..k]), s);
  }

  lemma StoppedNameLeavesInTime(env: Env, t: nat, s: Symbol) returns (u: nat, k: nat)
    requires Good(env) && t + env.params.lag < |env.panel.dates|
    requires var st := Mark(env, t, Run(env, t)); Has(st.values, s) && StopHit(env, t, st.entryPrice, s)
    ensures t <= u <= t + env.params.lag && ExitedBy(env, u, k, s)
  {
    hide Run, Mark, Queued, StopHit, Issued, WellFormed, ExitNames;
    var j := StoppedNameHasOneExit(env, t, s);
    k := ExitIsProcessed(env, j, s);
    u := j + env.params.lag;
  }

  lemma DueIsIssued(env: Env, j: nat)
    requires WellFormed(env) && j + env.params.lag < |env.panel.dates|
    ensures Due(env, j + env.params.lag) == Issued(env, j)
  {
    hide Issued;
  }

  lemma NextFill(env: Env, t: nat, st: State, due: seq<Order>, k: nat)
    requires t < |env.panel.dates| && k < |due|
    ensures FillAll(env, t, st, due[..k + 1]) == Fill(env, t, FillAll(env, t, st, due[..k]), due[k])
  {
    hide Fill;
    assert due[..k + 1][..k] == due[..k];
  }

  lemma ExitLeavesTheBook(env: Env, st: State, s: Symbol)
    requires Good(env) && Sound(env, st)
    ensures LeavesTheBook(env, st, FillExit(env, st, s), s)
  {
    hide Sum, Get, Remove, Has, Good, CostRate;
    GetPositive(st.values, s);
    RemoveSum(st.values, s);
    SoundIsSolvent(env, st);
    hide Sound;
    var held, after := Get(st.values, s), FillExit(env, st, s);
    if held > 0.0 {
      assert after.values == Remove(st.values, s);
    } else {
      GetAbsent(st.values, s);
      assert after == st.(exitPending := st.exitPending - {s});
      assert CostRate(env.params) * held == 0.0;
    }
  }

  // What a stop measures from

  /** Every held name carries the price it had on day `day`, if it had one, and no other name carries any. */
  ghost predicate PaidOn(env: Env, st: State, day: nat) {
    && (forall s :: s in st.entryPrice ==> Has(st.values, s) && ClosesAt(env.panel, s, day, st.entryPrice[s]))
    && (forall s, price :: Has(st.values, s) && ClosesAt(env.panel, s, day, price) ==> s in st.entryPrice)
  }

  ghost predicate PaidAtLast(env: Env, st: State, days: seq<nat>) {
    if |days| == 0 then st.values == [] && st.entryPrice == map[]
      else PaidOn(env, st, days[|days| - 1] + env.params.lag)
  }

  lemma MarkKeepsNames(panel: Panel, values: seq<Entry>, index: nat)
    ensures forall s :: Has(MarkValues(panel, values, index), s) <==> Has(values, s)
  {
    var marked := MarkValues(panel, values, index);
    hide MarkValues;
    forall s ensures Has(marked, s) <==> Has(values, s) {
      if Has(marked, s) {
        var k :| 0 <= k < |marked| && marked[k].symbol == s;
        assert values[k] in values;
      }
      if Has(values, s) {
        var k :| 0 <= k < |values| && values[k].symbol == s;
        assert marked[k] in marked;
      }
    }
  }

  lemma MarkKeepsPaid(env: Env, t: nat, days: seq<nat>)
    requires WellFormed(env) && t < |env.panel.dates| && PaidAtLast(env, Run(env, t), days)
    ensures PaidAtLast(env, BeforeFills(env, t), days)
  {
    hide Run, BeforeFills, Sum, WellFormed, Has;
    BeforeFillsIsMarked(env, t);
    MarkKeepsNames(env.panel, Run(env, t).values, t);
  }

  lemma {:induction false} ExitsKeepPaid(env: Env, t: nat, st: State, due: seq<Order>, days: seq<nat>)
    requires t < |env.panel.dates| && PaidAtLast(env, st, days) && forall o :: o in due ==> o.StopExit?
    ensures PaidAtLast(env, FillAll(env, t, st, due), days)
  {
    if |due| > 0 {
      assert due[|due| - 1] in due;
      ExitsKeepPaid(env, t, st, due[..|due| - 1], days);
      ExitKeepsPaid(env, FillAll(env, t, st, due[..|due| - 1]), due[|due| - 1].symbol, days);
    }
  }

  lemma ExitKeepsPaid(env: Env, st: State, symbol: Symbol, days: seq<nat>)
    requires PaidAtLast(env, st, days)
    ensures PaidAtLast(env, FillExit(env, st, symbol), days)
  {
    hide Get, CostRate, Bar, Has, Remove;
    RemoveForgets(st.values, symbol);
  }

  lemma RemoveForgets(values: seq<Entry>, symbol: Symbol)
    ensures var rest := Remove(values, symbol);
            && (forall s :: Has(rest, s) <==> Has(values, s) && s != symbol)
            && (values == [] ==> rest == [])
  {
    var rest := Remove(values, symbol);
    forall s | Has(values, s) && s != symbol ensures Has(rest, s) {
      var e :| e in values && e.symbol == s;
      assert e in rest;
    }
  }

  lemma RebalancePays(env: Env, t: nat, st: State, weights: seq<Entry>, decision: Decision)
    requires t < |env.panel.dates|
    ensures PaidOn(env, FillRebalance(env, t, st, weights, decision), t)
  {
    hide ApplyTarget, CandidatesOf, LogOf;
    var after := FillRebalance(env, t, st, weights, decision);
    hide FillRebalance, Bar;
    assert after.entryPrice == EntryPrices(env.panel, after.values, t);
    forall s | s in after.entryPrice ensures Has(after.values, s) && ClosesAt(env.panel, s, t, after.entryPrice[s]) {
      BarIsTheClose(env.panel, s, t, after.entryPrice[s]);
    }
    forall s, price | Has(after.values, s) && ClosesAt(env.panel, s, t, price) ensures s in after.entryPrice {
      BarIsTheClose(env.panel, s, t, price);
    }
  }

  /** A stop is measured from the price actually paid: the close of the day the last rebalance filled. */
  lemma {:induction false} EntryIsThePricePaid(env: Env, n: nat)
    requires WellFormed(env) && Increasing(env.rebalance) && n <= |env.panel.dates|
    ensures PaidAtLast(env, Run(env, n), FilledDays(env.rebalance, env.params.lag, n))
  {
    hide Run, PaidAtLast, FilledDays, WellFormed;
    if n == 0 {
      NothingPaidAtFirst(env);
    } else {
      EntryIsThePricePaid(env, n - 1);
      DayPays(env, n - 1);
    }
  }

  lemma NothingPaidAtFirst(env: Env)
    requires WellFormed(env)
    ensures PaidAtLast(env, Run(env, 0), FilledDays(env.rebalance, env.params.lag, 0))
  {
    NothingFilledAtFirst(env.rebalance, env.params.lag);
    RunStart(env);
  }

  lemma DayPays(env: Env, t: nat)
    requires WellFormed(env) && Increasing(env.rebalance) && t < |env.panel.dates|
    requires PaidAtLast(env, Run(env, t), FilledDays(env.rebalance, env.params.lag, t))
    ensures PaidAtLast(env, Run(env, t + 1), FilledDays(env.rebalance, env.params.lag, t + 1))
  {
    hide Run, FilledDays, WellFormed, FillAll, BeforeFills, Due, Issued, Decide, FillRebalance, PaidOn, PaidAtLast;
    var days, start, due := FilledDays(env.rebalance, env.params.lag, t), BeforeFills(env, t), Due(env, t);
    MarkKeepsPaid(env, t, days);
    DayFillsDue(env, t);
    FilledDaysGrow(env.rebalance, env.params.lag, t);
    var filled := FillAll(env, t, start, due);
    if t >= env.params.lag && t - env.params.lag in env.rebalance {
      RebalanceIsIssuedLast(env, t - env.params.lag);
      LastFill(env, t, start, due);
      var order := due[|due| - 1];
      RebalancePays(env, t, FillAll(env, t, start, due[..|due| - 1]), order.weights, order.decision);
      PaidIsPaidAtLast(env, filled, days, t);
    } else {
      OnlyExitsAreDue(env, t);
      ExitsKeepPaid(env, t, start, due, days);
      assert days + [] == days;
    }
    RecordKeepsPaid(env, filled, FilledDays(env.rebalance, env.params.lag, t + 1));
  }

  lemma OnlyExitsAreDue(env: Env, t: nat)
    requires WellFormed(env) && t < |env.panel.dates|
    requires !(t >= env.params.lag && t - env.params.lag in env.rebalance)
    ensures forall o :: o in Due(env, t) ==> o.StopExit?
  {
    hide Run, Mark, NewExits, WellFormed;
  }

  lemma PaidIsPaidAtLast(env: Env, st: State, days: seq<nat>, t: nat)
    requires t >= env.params.lag && PaidOn(env, st, t)
    ensures PaidAtLast(env, st, days + [t - env.params.lag])
  {
    hide PaidOn;
  }

  lemma RecordKeepsPaid(env: Env, st: State, days: seq<nat>)
    requires PaidAtLast(env, st, days)
    ensures PaidAtLast(env, Record(st), days)
  {
    hide Has, Sum, Bar;
  }

  // When a stop acts

  /** The day the last rebalance before day `t` filled, if any has. */
  function LastFillDay(env: Env, t: nat): Option<nat> {
    var days := FilledDays(env.rebalance, env.params.lag, t);
    if |days| == 0 then None else Some(days[|days| - 1] + env.params.lag)
  }

  /** The close of day `t` is at or below (1 - stop) times that of day `paidOn`. */
  ghost predicate FallenSince(panel: Panel, stop: real, paidOn: nat, t: nat, s: Symbol) {
    exists close, paid ::
      ClosesAt(panel, s, t, close) && ClosesAt(panel, s, paidOn, paid) && close <= (1.0 - stop) * paid
  }

  /** The name has fallen to its stop since the day the last rebalance filled. */
  ghost predicate Fallen(env: Env, t: nat, s: Symbol) {
    && env.params.stopLoss.Some? && LastFillDay(env, t).Some?
    && FallenSince(env.panel, env.params.stopLoss.value, LastFillDay(env, t).value, t, s)
  }

  lemma StopLevel(close: real, paid: real, stop: real)
    requires paid > 0.0
    ensures close / paid - 1.0 <= -stop <==> close <= (1.0 - stop) * paid
  {
    var ratio := close / paid;
    assert ratio * paid == close;
    assert ((1.0 - stop) - ratio) * paid == (1.0 - stop) * paid - close;
    var gap := (1.0 - stop) - ratio;
    assert gap >= 0.0 ==> gap * paid >= 0.0;
    assert gap < 0.0 ==> gap * paid < 0.0;
  }

  /** A stop is hit exactly by a name that has fallen that far. */
  lemma StopIsMeasuredFromTheFill(env: Env, t: nat, s: Symbol)
    requires Good(env) && Increasing(env.rebalance) && t < |env.panel.dates|
    requires Has(Mark(env, t, Run(env, t)).values, s)
    ensures StopHit(env, t, Mark(env, t, Run(env, t)).entryPrice, s) <==> Fallen(env, t, s)
  {
    EntryIsThePricePaid(env, t);
    MarkKeepsNames(env.panel, Run(env, t).values, t);
    var st := Run(env, t);
    assert Mark(env, t, st).entryPrice == st.entryPrice;
    assert Has(st.values, s);
    hide Run, Mark, FilledDays, WellFormed, Has;
    StopIsTheFall(env, t, s, st);
  }

  lemma StopIsTheFall(env: Env, t: nat, s: Symbol, st: State)
    requires PositivePrices(env.panel) && Has(st.values, s)
    requires PaidAtLast(env, st, FilledDays(env.rebalance, env.params.lag, t))
    ensures StopHit(env, t, st.entryPrice, s) <==> Fallen(env, t, s)
  {
    hide FilledDays;
    var days := FilledDays(env.rebalance, env.params.lag, t);
    if |days| > 0 {
      var last := days[|days| - 1] + env.params.lag;
      hide Has;
      StopIsTheFallFrom(env, t, s, st, last);
    }
  }

  /** `current` and `paid` are what the column holds on the two days. */
  lemma FallOfTwoBars(
      panel: Panel, stop: real, paidOn: nat, t: nat, s: Symbol, current: Option<real>, paid: Option<real>)
    requires forall p :: ClosesAt(panel, s, t, p) <==> current == Some(p)
    requires forall p :: ClosesAt(panel, s, paidOn, p) <==> paid == Some(p)
    requires paid.Some? ==> paid.value > 0.0
    ensures FallenSince(panel, stop, paidOn, t, s)
            <==> current.Some? && paid.Some? && current.value / paid.value - 1.0 <= -stop
  {
    hide ClosesAt;
    if current.Some? && paid.Some? {
      assert ClosesAt(panel, s, t, current.value) && ClosesAt(panel, s, paidOn, paid.value);
      StopLevel(current.value, paid.value, stop);
    }
  }

  lemma BarsAreCloses(panel: Panel, s: Symbol, t: nat)
    ensures forall p :: ClosesAt(panel, s, t, p) <==> Bar(panel, s, t) == Some(p)
  {
    forall p ensures ClosesAt(panel, s, t, p) <==> Bar(panel, s, t) == Some(p) {
      BarIsTheClose(panel, s, t, p);
    }
  }

  lemma PaidIsTheClose(env: Env, s: Symbol, st: State, last: nat)
    requires Has(st.values, s) && PaidOn(env, st, last)
    ensures var paid := if s in st.entryPrice then Some(st.entryPrice[s]) else None;
            forall p :: ClosesAt(env.panel, s, last, p) <==> paid == Some(p)
  {
    hide Has;
    forall p | ClosesAt(env.panel, s, last, p) ensures s in st.entryPrice && st.entryPrice[s] == p {
      assert ClosesAt(env.panel, s, last, st.entryPrice[s]);
    }
  }

  lemma PaidIsPositive(env: Env, s: Symbol, st: State, last: nat)
    requires PositivePrices(env.panel) && PaidOn(env, st, last) && s in st.entryPrice
    ensures st.entryPrice[s] > 0.0
  {
    hide Has;
  }

  lemma StopIsTheFallFrom(env: Env, t: nat, s: Symbol, st: State, last: nat)
    requires PositivePrices(env.panel) && Has(st.values, s) && PaidOn(env, st, last)
    ensures StopHit(env, t, st.entryPrice, s) <==>
              env.params.stopLoss.Some? && FallenSince(env.panel, env.params.stopLoss.value, last, t, s)
  {
    hide Has, FallenSince, ClosesAt, Bar, PositivePrices, PaidOn;
    BarsAreCloses(env.panel, s, t);
    PaidIsTheClose(env, s, st, last);
    if s in st.entryPrice {
      PaidIsPositive(env, s, st, last);
    }
    if env.params.stopLoss.Some? {
      FallOfTwoBars(env.panel, env.params.stopLoss.value, last, t, s, Bar(env.panel, s, t),
                    if s in st.entryPrice then Some(st.entryPrice[s]) else None);
    }
  }

  /** An exit is issued on a day for exactly the held names that have fallen to their stop and have none in flight. */
  lemma ExitsAreIssuedForTheFallen(env: Env, t: nat, s: Symbol)
    requires Good(env) && Increasing(env.rebalance) && t < |env.panel.dates|
    ensures StopExit(t + env.params.lag, s) in Issued(env, t) <==>
              Has(Mark(env, t, Run(env, t)).values, s) && Fallen(env, t, s) && s !in ExitNames(Run(env, t).pending)
  {
    var st := Mark(env, t, Run(env, t));
    ExitsAreTracked(env, t);
    MarkKeepsQueue(env, t, Run(env, t));
    NewExitsAreNew(env, t, st, st.values);
    if Has(st.values, s) {
      StopIsMeasuredFromTheFill(env, t, s);
    }
    IssuedExits(env, t, s);
    hide Run, Mark, Issued, NewExits, Fallen, Has, ExitNames, StopHit, WellFormed, PositivePrices;
  }

  lemma IssuedExits(env: Env, t: nat, s: Symbol)
    requires WellFormed(env) && t < |env.panel.dates|
    ensures var st := Mark(env, t, Run(env, t));
            StopExit(t + env.params.lag, s) in Issued(env, t) <==> s in NewExits(env, t, st, st.values)
  {
    hide Run, Mark, NewExits, Decide, WellFormed;
    var st := Mark(env, t, Run(env, t));
    var exits := NewExits(env, t, st, st.values);
    var orders := ExitOrders(exits, t + env.params.lag);
    if s in exits {
      var k :| 0 <= k < |exits| && exits[k] == s;
      assert orders[k] in orders;
    }
  }

  /** On the day a held name has fallen to its stop, exactly one exit for it is queued, decided today or on one of the
      last `lag` days. */
  lemma FallingNameHasOneExit(env: Env, t: nat, s: Symbol) returns (j: nat)
    requires Good(env) && Increasing(env.rebalance) && t < |env.panel.dates|
    requires Has(Mark(env, t, Run(env, t)).values, s) && Fallen(env, t, s)
    ensures var queue := Queued(env, t, Run(env, t)).pending;
            s in ExitNames(queue) && Sorting.Distinct(ExitNames(queue))
    ensures t <= j + env.params.lag && j <= t && StopExit(j + env.params.lag, s) in Issued(env, j)
  {
    StopIsMeasuredFromTheFill(env, t, s);
    hide Run, Mark, Queued, StopHit, Issued, WellFormed, Fallen, ExitNames;
    j := StoppedNameHasOneExit(env, t, s);
  }

  /** A held name that has fallen to its stop leaves the book within `lag` days, if the panel lasts that long. */
  lemma FallingNameLeavesInTime(env: Env, t: nat, s: Symbol) returns (u: nat, k: nat)
    requires Good(env) && Increasing(env.rebalance) && t + env.params.lag < |env.panel.dates|
    requires Has(Mark(env, t, Run(env, t)).values, s) && Fallen(env, t, s)
    ensures t <= u <= t + env.params.lag && ExitedBy(env, u, k, s)
  {
    StopIsMeasuredFromTheFill(env, t, s);
    hide Run, Mark, Queued, StopHit, Issued, WellFormed, Fallen, ExitNames;
    u, k := StoppedNameLeavesInTime(env, t, s);
  }
}
