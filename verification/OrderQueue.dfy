/** The delayed-order queue over whole runs: what is issued when, and that it fills exactly `lag` days later. */
module OrderQueue {
  import opened Calendar
  import opened Drift
  import opened Ledger
  import opened Market

  /** The orders day `t` decides on: its stop exits, then its scheduled rebalance. */
  function Issued(env: Env, t: nat): seq<Order>
    requires WellFormed(env) && t < |env.panel.dates|
  {
    var st := Mark(env, t, Run(env, t));
    ExitOrders(NewExits(env, t, st, st.values), t + env.params.lag)
    + (if t in env.rebalance then [Decide(env, t)] else [])
  }

  /** Everything issued on the days lo, lo + 1, ..., hi - 1, in that order. */
  function IssuedBetween(env: Env, lo: nat, hi: nat): seq<Order>
    requires WellFormed(env) && hi <= |env.panel.dates|
    decreases hi
  {
    if hi <= lo then [] else IssuedBetween(env, lo, hi - 1) + Issued(env, hi - 1)
  }

  lemma QueueGainsIssued(env: Env, t: nat)
    requires WellFormed(env) && t < |env.panel.dates|
    ensures Queued(env, t, Run(env, t)).pending == Run(env, t).pending + Issued(env, t)
  {
    hide Run, Decide, NewExits, ExitOrders, MarkValues, Sum, AscendingDates, ValidParams;
    var st := Mark(env, t, Run(env, t));
    var exits := ExitOrders(NewExits(env, t, st, st.values), t + env.params.lag);
    assert st.pending == Run(env, t).pending;
    hide Mark;
    if t in env.rebalance {
      assert (st.pending + exits) + [Decide(env, t)] == st.pending + (exits + [Decide(env, t)]);
    } else {
      assert exits + [] == exits;
    }
  }

  lemma IssuedIsDated(env: Env, t: nat)
    requires WellFormed(env) && t < |env.panel.dates|
    ensures forall o :: o in Issued(env, t) ==> o.executeAt == t + env.params.lag
  {
  }

  lemma {:induction false} DueConcat(a: seq<Order>, b: seq<Order>, index: nat)
    ensures DueBy(a + b, index) == DueBy(a, index) + DueBy(b, index)
    ensures DueAfter(a + b, index) == DueAfter(a, index) + DueAfter(b, index)
  {
    if |b| == 0 {
      assert a + b == a;
    } else {
      assert (a + b)[..|a + b| - 1] == a + b[..|b| - 1];
      DueConcat(a, b[..|b| - 1], index);
    }
  }

  lemma {:induction false} DueSameDate(orders: seq<Order>, executeAt: nat, index: nat)
    requires forall o :: o in orders ==> o.executeAt == executeAt
    ensures DueBy(orders, index) == if executeAt <= index then orders else []
    ensures DueAfter(orders, index) == if executeAt <= index then [] else orders
  {
    if |orders| > 0 {
      assert orders == orders[..|orders| - 1] + [orders[|orders| - 1]];
      assert orders[|orders| - 1] in orders;
      DueSameDate(orders[..|orders| - 1], executeAt, index);
    }
  }

  /** The first day whose orders are still queued after `n` days. */
  function Oldest(env: Env, n: nat): nat {
    if n <= env.params.lag then 0 else n - env.params.lag
  }

  lemma {:induction false} SplitRange(env: Env, lo: nat, hi: nat, t: nat)
    requires WellFormed(env) && lo <= hi <= |env.panel.dates| && hi <= t + 1
    requires lo == Oldest(env, t)
    ensures DueBy(IssuedBetween(env, lo, hi), t)
         == if t >= env.params.lag && hi > lo then Issued(env, lo) else []
    ensures DueAfter(IssuedBetween(env, lo, hi), t) == IssuedBetween(env, Oldest(env, t + 1), hi)
    decreases hi
  {
    hide Issued, Oldest, DueBy, DueAfter;
    OldestMoves(env, t);
    DueSameDate([], t, t);
    if hi > lo {
      SplitRange(env, lo, hi - 1, t);
      DueConcat(IssuedBetween(env, lo, hi - 1), Issued(env, hi - 1), t);
      IssuedIsDated(env, hi - 1);
      DueSameDate(Issued(env, hi - 1), hi - 1 + env.params.lag, t);
      assert [] + Issued(env, hi - 1) == Issued(env, hi - 1);
      assert IssuedBetween(env, lo, hi - 1) + [] == IssuedBetween(env, lo, hi - 1);
      assert Issued(env, lo) + [] == Issued(env, lo);
    }
  }

  lemma OldestMoves(env: Env, t: nat)
    ensures Oldest(env, t) == if t <= env.params.lag then 0 else t - env.params.lag
    ensures t >= env.params.lag ==> Oldest(env, t + 1) == Oldest(env, t) + 1 && Oldest(env, t) + env.params.lag == t
    ensures t < env.params.lag ==> Oldest(env, t + 1) == Oldest(env, t) == 0
  {
  }

  lemma {:induction false} FillAllKeepsPending(env: Env, index: nat, st: State, due: seq<Order>)
    requires index < |env.panel.dates|
    ensures FillAll(env, index, st, due).pending == st.pending
    ensures FillAll(env, index, st, due).equityCurve == st.equityCurve
    ensures FillAll(env, index, st, due).dailyReturns == st.dailyReturns
    ensures FillAll(env, index, st, due).invested == st.invested
  {
    if |due| > 0 {
      FillAllKeepsPending(env, index, st, due[..|due| - 1]);
    }
  }

  /** After any number of days the queue holds exactly what the last `lag` days issued, in decision order. */
  lemma {:induction false} QueueHoldsTheLastDays(env: Env, n: nat)
    requires WellFormed(env) && n <= |env.panel.dates|
    ensures Run(env, n).pending == IssuedBetween(env, Oldest(env, n), n)
    decreases n, 0
  {
    hide Issued, Queued, FillAll;
    if n > 0 {
      DueIsOneDay(env, n - 1);
      var st := Queued(env, n - 1, Run(env, n - 1));
      FillAllKeepsPending(env, n - 1, st.(pending := DueAfter(st.pending, n - 1)), DueBy(st.pending, n - 1));
    }
  }

  /** What fills on day `t` is exactly what day t - lag issued, all of it and in that order. */
  lemma {:induction false} DueIsOneDay(env: Env, t: nat)
    requires WellFormed(env) && t < |env.panel.dates|
    ensures var queue := Queued(env, t, Run(env, t)).pending;
            && DueBy(queue, t) == (if t >= env.params.lag then Issued(env, t - env.params.lag) else [])
            && DueAfter(queue, t) == IssuedBetween(env, Oldest(env, t + 1), t + 1)
    decreases t, 1
  {
    hide Issued, Queued;
    QueueHoldsTheLastDays(env, t);
    QueueGainsIssued(env, t);
    OldestMoves(env, t);
    SplitRange(env, Oldest(env, t), t + 1, t);
  }

  /** The state day `t` fills into: its orders are queued and the due ones taken off. */
  function BeforeFills(env: Env, t: nat): State
    requires WellFormed(env) && t < |env.panel.dates|
  {
    var st := Queued(env, t, Run(env, t));
    st.(pending := DueAfter(st.pending, t))
  }

  /** The orders filled on day `t`. */
  function Due(env: Env, t: nat): seq<Order>
    requires WellFormed(env) && t < |env.panel.dates|
  {
    if t >= env.params.lag then Issued(env, t - env.params.lag) else []
  }

  lemma DayFillsDue(env: Env, t: nat)
    requires WellFormed(env) && t < |env.panel.dates|
    ensures Run(env, t + 1) == Record(FillAll(env, t, BeforeFills(env, t), Due(env, t)))
  {
    hide Issued, FillAll, DueBy, DueAfter, Queued, Record;
    DueIsOneDay(env, t);
  }

  // The holdings log

  function LogsOf(env: Env, t: nat, due: seq<Order>): seq<LogEntry>
    requires t < |env.panel.dates|
  {
    if |due| == 0 then []
    else
      var before, last := LogsOf(env, t, due[..|due| - 1]), due[|due| - 1];
      if last.Rebalance? then before + [LogOf(last.decision, env.panel.dates[t])] else before
  }

  lemma {:induction false} FillAllLogs(env: Env, t: nat, st: State, due: seq<Order>)
    requires t < |env.panel.dates|
    ensures FillAll(env, t, st, due).log == st.log + LogsOf(env, t, due)
    ensures FillAll(env, t, st, due).rebalances == st.rebalances + |LogsOf(env, t, due)|
  {
    if |due| > 0 {
      FillAllLogs(env, t, st, due[..|due| - 1]);
    }
  }

  lemma {:induction false} ExitsLogNothing(env: Env, t: nat, due: seq<Order>)
    requires t < |env.panel.dates| && forall o :: o in due ==> o.StopExit?
    ensures LogsOf(env, t, due) == []
  {
    if |due| > 0 {
      assert due[|due| - 1] in due;
      ExitsLogNothing(env, t, due[..|due| - 1]);
    }
  }

  /** The log line of the decision taken on day `i`. */
  function LogLine(env: Env, i: nat): LogEntry
    requires WellFormed(env) && i + env.params.lag < |env.panel.dates|
  {
    LogOf(Decide(env, i).decision, env.panel.dates[i + env.params.lag])
  }

  lemma IssuedLogs(env: Env, i: nat)
    requires WellFormed(env) && i + env.params.lag < |env.panel.dates|
    ensures LogsOf(env, i + env.params.lag, Issued(env, i))
         == if i in env.rebalance then [LogLine(env, i)] else []
  {
    hide Mark, Run, NewExits, Decide, LogOf;
    var st := Mark(env, i, Run(env, i));
    var exits := ExitOrders(NewExits(env, i, st, st.values), i + env.params.lag);
    ExitsLogNothing(env, i + env.params.lag, exits);
    if i in env.rebalance {
      assert Issued(env, i)[..|exits|] == exits;
    } else {
      assert Issued(env, i) == exits;
    }
  }

  /** The scheduled days whose order has filled within the first `n` days. */
  function FilledDays(rebalance: seq<nat>, lag: nat, n: nat): (days: seq<nat>)
    ensures forall i :: i in days <==> i in rebalance && i + lag < n
  {
    if |rebalance| == 0 then []
    else
      var before, last := FilledDays(rebalance[..|rebalance| - 1], lag, n), rebalance[|rebalance| - 1];
      if last + lag < n then before + [last] else before
  }

  lemma {:induction false} FilledDaysGrow(rebalance: seq<nat>, lag: nat, n: nat)
    requires Increasing(rebalance)
    ensures FilledDays(rebalance, lag, n + 1)
         == FilledDays(rebalance, lag, n) + (if n >= lag && n - lag in rebalance then [n - lag] else [])
  {
    if |rebalance| > 0 {
      var front, last := rebalance[..|rebalance| - 1], rebalance[|rebalance| - 1];
      FilledDaysGrow(front, lag, n);
      FilledDaysLast(rebalance, lag, n);
      FilledDaysLast(rebalance, lag, n + 1);
      hide FilledDays;
      LastOfIncreasing(rebalance);
    }
  }

  lemma FilledDaysLast(rebalance: seq<nat>, lag: nat, n: nat)
    requires |rebalance| > 0
    ensures var front, last := rebalance[..|rebalance| - 1], rebalance[|rebalance| - 1];
            FilledDays(rebalance, lag, n) == FilledDays(front, lag, n) + (if last + lag < n then [last] else [])
  {
  }

  lemma LastOfIncreasing(rebalance: seq<nat>)
    requires Increasing(rebalance) && |rebalance| > 0
    ensures var front, last := rebalance[..|rebalance| - 1], rebalance[|rebalance| - 1];
            && (forall i :: i in rebalance <==> i in front || i == last)
            && (forall i :: i in front ==> i < last)
  {
    assert rebalance == rebalance[..|rebalance| - 1] + [rebalance[|rebalance| - 1]];
  }

  lemma {:induction false} NothingFilledAtFirst(rebalance: seq<nat>, lag: nat)
    ensures FilledDays(rebalance, lag, 0) == []
  {
    if |rebalance| > 0 {
      NothingFilledAtFirst(rebalance[..|rebalance| - 1], lag);
    }
  }

  predicate InPanel(env: Env, days: seq<nat>) {
    forall i :: i in days ==> i + env.params.lag < |env.panel.dates|
  }

  function LogLines(env: Env, days: seq<nat>): (lines: seq<LogEntry>)
    requires WellFormed(env) && InPanel(env, days)
    ensures |lines| == |days|
  {
    seq(|days|, k requires 0 <= k < |days| => assert days[k] in days; LogLine(env, days[k]))
  }

  /** The holdings log is exactly the scheduled days whose fill lies inside the panel, in order, each logged with
      its own decision and its own fill day. */
  lemma {:induction false} LogIsTheFilledSchedule(env: Env, n: nat)
    requires WellFormed(env) && Increasing(env.rebalance) && n <= |env.panel.dates|
    ensures Run(env, n).log == LogLines(env, FilledDays(env.rebalance, env.params.lag, n))
    ensures Run(env, n).rebalances == |FilledDays(env.rebalance, env.params.lag, n)|
  {
    hide Run, LogLines, WellFormed, FilledDays;
    if n == 0 {
      NothingFilledAtFirst(env.rebalance, env.params.lag);
      RunStart(env);
    } else {
      LogIsTheFilledSchedule(env, n - 1);
      LogStep(env, n - 1);
    }
  }

  lemma LogStep(env: Env, t: nat)
    requires WellFormed(env) && Increasing(env.rebalance) && t < |env.panel.dates|
    requires Run(env, t).log == LogLines(env, FilledDays(env.rebalance, env.params.lag, t))
    requires Run(env, t).rebalances == |FilledDays(env.rebalance, env.params.lag, t)|
    ensures Run(env, t + 1).log == LogLines(env, FilledDays(env.rebalance, env.params.lag, t + 1))
    ensures Run(env, t + 1).rebalances == |FilledDays(env.rebalance, env.params.lag, t + 1)|
  {
    hide Run, LogLines, FilledDays, AddedDay, WellFormed;
    DayExtendsLog(env, t);
    FilledDaysGrow(env.rebalance, env.params.lag, t);
    LogLinesConcat(env, FilledDays(env.rebalance, env.params.lag, t), AddedDay(env, t));
  }

  /** The scheduled day, if any, whose order fills on day `t`. */
  function AddedDay(env: Env, t: nat): (days: seq<nat>)
    ensures days == if t >= env.params.lag && t - env.params.lag in env.rebalance then [t - env.params.lag] else []
  {
    if t >= env.params.lag && t - env.params.lag in env.rebalance then [t - env.params.lag] else []
  }

  lemma LogLinesConcat(env: Env, a: seq<nat>, b: seq<nat>)
    requires WellFormed(env) && InPanel(env, a) && InPanel(env, b)
    ensures InPanel(env, a + b) && LogLines(env, a + b) == LogLines(env, a) + LogLines(env, b)
  {
    hide LogLine, WellFormed;
  }

  lemma DayExtendsLog(env: Env, t: nat)
    requires WellFormed(env) && t < |env.panel.dates|
    ensures InPanel(env, AddedDay(env, t))
    ensures Run(env, t + 1).log == Run(env, t).log + LogLines(env, AddedDay(env, t))
    ensures Run(env, t + 1).rebalances == Run(env, t).rebalances + |AddedDay(env, t)|
  {
    hide Issued, FillAll, LogLine, LogsOf, BeforeFills, Run;
    DayFillsDue(env, t);
    FillAllLogs(env, t, BeforeFills(env, t), Due(env, t));
    BeforeFillsKeepsLog(env, t);
    if t >= env.params.lag {
      IssuedLogs(env, t - env.params.lag);
    } else {
      ExitsLogNothing(env, t, []);
    }
  }

  lemma BeforeFillsKeepsLog(env: Env, t: nat)
    requires WellFormed(env) && t < |env.panel.dates|
    ensures BeforeFills(env, t).log == Run(env, t).log
    ensures BeforeFills(env, t).rebalances == Run(env, t).rebalances
  {
  }
}
