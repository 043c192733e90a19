/** What a run reports of itself: its first fill, its invested fractions, its supported rebalances, its log lines. */
module Tally {
  import opened Calendar
  import opened Claims
  import opened Drift
  import opened Ledger
  import opened Market
  import opened Options
  import opened OrderQueue
  import opened Selection
  import Solvency

  ghost predicate OnlyExits(orders: seq<Order>) {
    forall o :: o in orders ==> o.StopExit?
  }

  ghost predicate ExitsThen(orders: seq<Order>, last: Order) {
    |orders| > 0 && orders[|orders| - 1] == last && OnlyExits(orders[..|orders| - 1])
  }

  lemma {:induction false} ExitsTallyNothing(env: Env, t: nat, st: State, due: seq<Order>)
    requires t < |env.panel.dates| && OnlyExits(due)
    ensures var after := FillAll(env, t, st, due);
            && after.investedFrom == st.investedFrom && after.supportedRebalances == st.supportedRebalances
  {
    if |due| > 0 {
      assert due[|due| - 1] in due;
      ExitsTallyNothing(env, t, st, due[..|due| - 1]);
    }
  }

  /** What the fills of one day add. */
  ghost predicate Tallied(env: Env, t: nat, before: State, after: State)
    requires WellFormed(env) && t < |env.panel.dates|
  {
    var i := t - env.params.lag;
    if i >= 0 && i in env.rebalance then
      && after.investedFrom == (if before.investedFrom.None? then Some(t) else before.investedFrom)
      && after.supportedRebalances
           == before.supportedRebalances + (if Decide(env, i).decision.hadClaimSupport then 1 else 0)
    else
      after.investedFrom == before.investedFrom && after.supportedRebalances == before.supportedRebalances
  }

  lemma FillsTally(env: Env, t: nat, st: State)
    requires WellFormed(env) && t < |env.panel.dates|
    ensures Tallied(env, t, st, FillAll(env, t, st, Due(env, t)))
  {
    hide FillAll, Decide, WellFormed, Due, FillRebalance, ExitsThen, OnlyExits;
    DueSplits(env, t);
    var due, i := Due(env, t), t - env.params.lag;
    if i >= 0 && i in env.rebalance {
      DecideIsARebalance(env, i);
      LastFillTallies(env, t, st, due, Decide(env, i));
    } else {
      ExitsTallyNothing(env, t, st, due);
    }
  }

  lemma DecideIsARebalance(env: Env, i: nat)
    requires WellFormed(env) && i < |env.panel.dates|
    ensures Decide(env, i).Rebalance?
  {
    hide WellFormed, Selected;
  }

  lemma LastFillTallies(env: Env, t: nat, st: State, due: seq<Order>, last: Order)
    requires t < |env.panel.dates| && last.Rebalance? && ExitsThen(due, last)
    ensures var after, noted := FillAll(env, t, st, due), last.decision.hadClaimSupport;
            && after.investedFrom == (if st.investedFrom.None? then Some(t) else st.investedFrom)
            && after.supportedRebalances == st.supportedRebalances + (if noted then 1 else 0)
  {
    hide FillAll, FillRebalance;
    var exits := due[..|due| - 1];
    ExitsTallyNothing(env, t, st, exits);
    Solvency.LastFill(env, t, st, due);
    RebalanceTallies(env, t, FillAll(env, t, st, exits), last.weights, last.decision);
  }

  lemma DueSplits(env: Env, t: nat)
    requires WellFormed(env) && t < |env.panel.dates|
    ensures var i := t - env.params.lag;
            if i >= 0 && i in env.rebalance then ExitsThen(Due(env, t), Decide(env, i)) else OnlyExits(Due(env, t))
  {
    hide Decide, WellFormed, Issued, ExitsThen;
    var i := t - env.params.lag;
    if i >= 0 {
      IssuedSplits(env, i);
    }
  }

  lemma RebalanceTallies(env: Env, t: nat, st: State, weights: seq<Entry>, decision: Decision)
    requires t < |env.panel.dates|
    ensures var after := FillRebalance(env, t, st, weights, decision);
            && after.investedFrom == (if st.investedFrom.None? then Some(t) else st.investedFrom)
            && after.supportedRebalances == st.supportedRebalances + (if decision.hadClaimSupport then 1 else 0)
  {
    hide ApplyTarget, EntryPrices, CandidatesOf, LogOf;
  }

  lemma IssuedSplits(env: Env, i: nat)
    requires WellFormed(env) && i < |env.panel.dates|
    ensures if i in env.rebalance then ExitsThen(Issued(env, i), Decide(env, i)) else OnlyExits(Issued(env, i))
  {
    hide Mark, Run, NewExits, Decide, WellFormed;
    var st := Mark(env, i, Run(env, i));
    var exits := ExitOrders(NewExits(env, i, st, st.values), i + env.params.lag);
    if i in env.rebalance {
      assert Issued(env, i)[..|exits|] == exits;
    } else {
      assert Issued(env, i) == exits;
    }
  }

  ghost predicate AllInPanel(env: Env, days: seq<nat>) {
    forall k :: 0 <= k < |days| ==> days[k] < |env.panel.dates|
  }

  /** How many of these days' decisions had any claim live. */
  function Supported(env: Env, days: seq<nat>): nat
    requires WellFormed(env) && AllInPanel(env, days)
  {
    if |days| == 0 then 0
    else
      Supported(env, days[..|days| - 1])
        + (if Decide(env, days[|days| - 1]).decision.hadClaimSupport then 1 else 0)
  }

  lemma SupportedAppend(env: Env, days: seq<nat>, i: nat)
    requires WellFormed(env) && AllInPanel(env, days) && i < |env.panel.dates|
    ensures AllInPanel(env, days + [i])
    ensures Supported(env, days + [i])
         == Supported(env, days) + (if Decide(env, i).decision.hadClaimSupport then 1 else 0)
  {
    hide Decide, WellFormed;
    assert (days + [i])[..|days|] == days;
  }

  /** A decision notes support exactly when some signal is live that day. */
  lemma DecisionNotesLiveClaims(env: Env, i: nat)
    requires WellFormed(env) && i < |env.panel.dates|
    ensures Decide(env, i).decision.hadClaimSupport <==>
              exists s :: s in env.signals && s.effective <= Ordinal(env.panel.dates[i]) < s.expires
  {
    var day := Ordinal(env.panel.dates[i]);
    hide Ordinal, Selected, AscendingDates, LiveFor;
    var active := ActiveGroups(env.signals, day);
    forall s | s in env.signals && s.effective <= day < s.expires ensures s.symbol in ClaimScores(active) {
      GroupsAreActive(env.signals, day, s.symbol);
      LiveForIsExact(env.signals, day, s.symbol);
      assert s in LiveFor(env.signals, day, s.symbol);
    }
    if ClaimScores(active) != map[] {
      var symbol :| symbol in active;
      GroupsAreActive(env.signals, day, symbol);
      LiveForIsExact(env.signals, day, symbol);
      var live := LiveFor(env.signals, day, symbol);
      assert live[0] in live;
    }
  }

  lemma DayTallies(env: Env, t: nat)
    requires WellFormed(env) && t < |env.panel.dates|
    ensures Tallied(env, t, Run(env, t), Run(env, t + 1))
    ensures Run(env, t + 1).invested == Run(env, t).invested
              + (if Run(env, t + 1).investedFrom.None? then []
                 else [if Run(env, t + 1).equity > 0.0 then Sum(Run(env, t + 1).values) / Run(env, t + 1).equity
                       else 0.0])
  {
    hide Run, BeforeFills, Due, FillAll, Decide, WellFormed, MarkValues, Sum;
    Solvency.BeforeFillsIsMarked(env, t);
    DayFillsDue(env, t);
    FillsTally(env, t, BeforeFills(env, t));
    FillAllKeepsPending(env, t, BeforeFills(env, t), Due(env, t));
  }

  lemma {:induction false} SupportedIsExact(env: Env, n: nat)
    requires WellFormed(env) && Increasing(env.rebalance) && n <= |env.panel.dates|
    ensures var (st, days) := (Run(env, n), FilledDays(env.rebalance, env.params.lag, n));
            AllInPanel(env, days) && st.supportedRebalances == Supported(env, days)
  {
    hide Run, FilledDays, WellFormed, Decide, Supported;
    if n == 0 {
      NothingSupported(env);
      NothingFilledAtFirst(env.rebalance, env.params.lag);
      RunStart(env);
    } else {
      SupportedIsExact(env, n - 1);
      DayTallies(env, n - 1);
      FilledDaysGrow(env.rebalance, env.params.lag, n - 1);
      var before, i := FilledDays(env.rebalance, env.params.lag, n - 1), n - 1 - env.params.lag;
      if i >= 0 && i in env.rebalance {
        SupportedAppend(env, before, i);
      } else {
        assert before + [] == before;
      }
      hide AllInPanel;
    }
  }

  lemma {:induction false} FirstFillIsExact(env: Env, n: nat)
    requires WellFormed(env) && Increasing(env.rebalance) && n <= |env.panel.dates|
    ensures var (st, days) := (Run(env, n), FilledDays(env.rebalance, env.params.lag, n));
            && st.investedFrom == (if |days| == 0 then None else Some(days[0] + env.params.lag))
            && |st.invested| == (if |days| == 0 then 0 else n - (days[0] + env.params.lag))
  {
    hide Run, FilledDays, WellFormed, Decide, Sum;
    if n == 0 {
      NothingFilledAtFirst(env.rebalance, env.params.lag);
      RunStart(env);
    } else {
      FirstFillIsExact(env, n - 1);
      DayTallies(env, n - 1);
      FilledDaysGrow(env.rebalance, env.params.lag, n - 1);
      var before := FilledDays(env.rebalance, env.params.lag, n - 1);
      assert before + [] == before;
      assert |before| > 0 ==> before[0] in before;
    }
  }

  /**
   * The first fill is that of the first scheduled decision, the supported rebalances are those of the filled decisions
   * that saw a live claim, and from the first fill on every day records one invested fraction.
   */
  lemma TallyIsExact(env: Env, n: nat)
    requires WellFormed(env) && Increasing(env.rebalance) && n <= |env.panel.dates|
    ensures var (st, days) := (Run(env, n), FilledDays(env.rebalance, env.params.lag, n));
            && st.investedFrom == (if |days| == 0 then None else Some(days[0] + env.params.lag))
            && AllInPanel(env, days)
            && st.supportedRebalances == Supported(env, days)
            && |st.invested| == (if |days| == 0 then 0 else n - (days[0] + env.params.lag))
  {
    SupportedIsExact(env, n);
    FirstFillIsExact(env, n);
    hide Run, FilledDays, WellFormed, Decide, Supported;
  }

  lemma NothingSupported(env: Env)
    requires WellFormed(env)
    ensures Supported(env, []) == 0
  {
  }

  /** Each recorded fraction times that day's equity is the value held. */
  lemma InvestedIsTheHeldShare(env: Env, t: nat)
    requires Solvency.Good(env) && t < |env.panel.dates| && Run(env, t + 1).investedFrom.Some?
    ensures var st := Run(env, t + 1);
            |st.invested| > 0 && st.invested[|st.invested| - 1] * st.equity == Sum(st.values)
  {
    hide Run, Sum, WellFormed, PositivePrices;
    DayTallies(env, t);
    Solvency.EveryDayIsSound(env, t + 1);
    Solvency.SoundIsSolvent(env, Run(env, t + 1));
  }

  /** What a log line says: when it was decided, when it filled, the target, and each holding's support. */
  lemma LogLineSays(env: Env, i: nat)
    requires WellFormed(env) && i + env.params.lag < |env.panel.dates|
    ensures var line, ps := LogLine(env, i), Decide(env, i).decision.positions;
            && line.decidedAt == env.panel.dates[i] && line.date == env.panel.dates[i + env.params.lag]
            && line.weights == Decide(env, i).weights
            && |line.weights| == |ps| == |line.claimSupport|
            && forall k :: 0 <= k < |ps| ==>
                 && line.weights[k] == Entry(ps[k].symbol, ps[k].weight)
                 && line.claimSupport[k] == Entry(ps[k].symbol, ps[k].claimSupport)
  {
    hide Selected, ActiveGroups, ClaimScores;
  }
}
