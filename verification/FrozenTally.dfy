/** What a run under the earlier accounting reports of itself: its log, its counts and its first fill. */
module FrozenTally {
  import opened Calendar
  import opened Claims
  import opened ConstantWeights
  import opened Drift
  import opened Ledger
  import opened Market
  import opened Options
  import opened OrderQueue
  import opened Selection
  import opened Tally
  import Proposal
  import SelectionLaws
  import Solvency

  /** The log line of a decision taken on day `i`, which is also the day it fills. */
  ghost predicate LineSays(env: Env, i: nat, line: LogEntry)
    requires WellFormed(env) && i < |env.panel.dates|
  {
    var ps := Decide(env, i).decision.positions;
    && line.decidedAt == line.date == env.panel.dates[i]
    && |line.weights| == |line.claimSupport| == |ps|
    && forall k :: 0 <= k < |ps| ==>
         && line.weights[k] == Entry(ps[k].symbol, ps[k].weight)
         && line.claimSupport[k] == Entry(ps[k].symbol, ps[k].claimSupport)
  }

  lemma SupportsAreTheScores(env: Env, i: nat, k: nat)
    requires WellFormed(env) && i < |env.panel.dates| && k < |Decide(env, i).decision.positions|
    ensures var decision := Decide(env, i).decision;
            decision.positions[k].claimSupport
              == SupportOf(ClaimScores(decision.activeClaims), decision.positions[k].symbol)
  {
    hide Choose, Qualify, ActiveGroups, ClaimScores, SupportOf, Ordinal;
    var scores := ClaimScores(ActiveGroups(env.signals, Ordinal(env.panel.dates[i])));
    var es := Eligibles(env.panel, env.symbols, i, env.params, scores);
    EligiblesComeFromSymbols(env.panel, env.symbols, i, env.params, scores);
    assert Decide(env, i).decision.positions == Choose(es, env.params);
    hide Eligibles, Decide;
    var e := SelectionLaws.ChosenFrom(es, env.params, k);
    Proposal.QualifiedReturned(env.panel, e.symbol, i, env.params, scores, e);
  }

  lemma FillAppends(env: Env, t: nat, st: FrozenState, decision: Decision)
    ensures var weights := Positive(TargetOf(decision.positions));
            FrozenFill(env, t, st, decision).log
              == st.log + [LogEntry(decision.asOf, decision.asOf, weights,
                                    ScoresOf(weights, ClaimScores(decision.activeClaims)))]
  {
    hide WeightTurnover, CandidatesOf, ClaimScores, TargetOf, Positive, RecordedPrices, ScoresOf, CostRate;
  }

  lemma LineFields(decision: Decision, scores: map<Symbol, real>)
    requires forall k :: 0 <= k < |decision.positions| ==>
               decision.positions[k].claimSupport == SupportOf(scores, decision.positions[k].symbol)
    ensures var ps := decision.positions;
            var weights, supports := TargetOf(ps), ScoresOf(TargetOf(ps), scores);
            forall k :: 0 <= k < |ps| ==>
              && weights[k] == Entry(ps[k].symbol, ps[k].weight)
              && supports[k] == Entry(ps[k].symbol, ps[k].claimSupport)
  {
    hide SupportOf;
  }

  lemma LineIsSaid(env: Env, t: nat)
    requires WellFormed(env) && t < |env.panel.dates|
    ensures var decision := Decide(env, t).decision;
            var weights := Positive(TargetOf(decision.positions));
            LineSays(env, t, LogEntry(decision.asOf, decision.asOf, weights,
                                      ScoresOf(weights, ClaimScores(decision.activeClaims))))
  {
    Solvency.DecisionsAreSound(env, t);
    hide WellFormed, Decide, ClaimScores, SupportOf, Sum, DistinctSymbols, Solvency.InUniverse;
    var decision := Decide(env, t).decision;
    PositiveIsAll(TargetOf(decision.positions));
    forall k | 0 <= k < |decision.positions|
      ensures decision.positions[k].claimSupport
           == SupportOf(ClaimScores(decision.activeClaims), decision.positions[k].symbol)
    {
      SupportsAreTheScores(env, t, k);
    }
    LineFields(decision, ClaimScores(decision.activeClaims));
    hide LongOnly, Positive, TargetOf, ScoresOf;
  }

  lemma FillLogs(env: Env, t: nat, st: FrozenState)
    requires WellFormed(env) && t < |env.panel.dates|
    ensures var after := FrozenFill(env, t, st, Decide(env, t).decision);
            |after.log| == |st.log| + 1 && after.log[..|st.log|] == st.log && LineSays(env, t, after.log[|st.log|])
  {
    hide Decide, WellFormed, LineSays, FrozenFill, Positive, ScoresOf, ClaimScores;
    FillAppends(env, t, st, Decide(env, t).decision);
    LineIsSaid(env, t);
  }

  /** What one day adds to the report. */
  lemma DayReports(env: Env, t: nat)
    requires WellFormed(env) && t < |env.panel.dates|
    ensures var before, after := FrozenRun(env, t), FrozenRun(env, t + 1);
            && (t in env.rebalance ==>
                  && after.rebalances == before.rebalances + 1
                  && after.supportedRebalances
                       == before.supportedRebalances + (if Decide(env, t).decision.hadClaimSupport then 1 else 0)
                  && after.investedFrom == (if before.investedFrom.None? then Some(t) else before.investedFrom)
                  && |after.log| == |before.log| + 1 && after.log[..|before.log|] == before.log
                  && LineSays(env, t, after.log[|before.log|]))
            && (t !in env.rebalance ==>
                  && after.rebalances == before.rebalances && after.log == before.log
                  && after.supportedRebalances == before.supportedRebalances
                  && after.investedFrom == before.investedFrom)
            && after.invested == before.invested + (if after.investedFrom.None? then [] else [Sum(after.weights)])
  {
    FrozenRunStep(env, t);
    hide FrozenRun, Decide, WellFormed, LineSays, Sum, DayReturn, Zeroed, CountStops, Grown;
    var st := FrozenStops(env, t, FrozenMark(env, t, FrozenRun(env, t)));
    if t in env.rebalance {
      FillLogs(env, t, st);
    }
    hide WeightTurnover, CandidatesOf, ClaimScores, ScoresOf, TargetOf, Positive, RecordedPrices, CostRate;
  }

  /** The equity that is left of `equity` once `turnover` has been charged. */
  ghost predicate ChargedFor(env: Env, left: real, equity: real, turnover: real) {
    left == equity * (1.0 - CostRate(env.params) * turnover)
  }

  lemma NothingCharged(env: Env, equity: real)
    ensures ChargedFor(env, equity, equity, 0.0)
  {
  }

  lemma FillCharges(env: Env, t: nat, st: FrozenState, decision: Decision)
    ensures var after := FrozenFill(env, t, st, decision);
            && ChargedFor(env, after.equity, st.equity, after.turnover - st.turnover)
            && after.dailyReturns == st.dailyReturns && after.equityCurve == st.equityCurve
  {
    hide CandidatesOf, ClaimScores, ScoresOf, TargetOf, Positive, RecordedPrices, CostRate, WeightTurnover;
  }

  lemma RebalanceCharges(env: Env, t: nat, st: FrozenState)
    requires WellFormed(env) && t < |env.panel.dates|
    ensures var after := FrozenRebalance(env, t, st);
            && ChargedFor(env, after.equity, st.equity, after.turnover - st.turnover)
            && after.dailyReturns == st.dailyReturns && after.equityCurve == st.equityCurve
  {
    hide FrozenFill, ChargedFor, Decide, WellFormed;
    if t in env.rebalance {
      FillCharges(env, t, st, Decide(env, t).decision);
    } else {
      NothingCharged(env, st.equity);
    }
  }

  lemma MarkThenStop(env: Env, t: nat, st: FrozenState)
    ensures var stopped := FrozenStops(env, t, FrozenMark(env, t, st));
            && stopped.turnover == st.turnover && stopped.equityCurve == st.equityCurve
            && (t == 0 ==> stopped.equity == st.equity && stopped.dailyReturns == st.dailyReturns)
            && (t > 0 ==>
                  && |stopped.dailyReturns| == |st.dailyReturns| + 1
                  && stopped.dailyReturns[..|st.dailyReturns|] == st.dailyReturns
                  && stopped.equity == Grown(st.equity, stopped.dailyReturns[|st.dailyReturns|]))
  {
    hide DayReturn, Grown, Zeroed, CountStops;
  }

  lemma StepCharges(env: Env, t: nat, st: FrozenState)
    requires WellFormed(env) && t < |env.panel.dates|
    ensures var after, was := FrozenStep(env, t, st), st.dailyReturns;
            && after.equityCurve == st.equityCurve + [after.equity]
            && (t == 0 ==>
                  && after.dailyReturns == was
                  && ChargedFor(env, after.equity, st.equity, after.turnover - st.turnover))
            && (t > 0 ==>
                  && |after.dailyReturns| == |was| + 1 && after.dailyReturns[..|was|] == was
                  && ChargedFor(env, after.equity, Grown(st.equity, after.dailyReturns[|was|]),
                       after.turnover - st.turnover))
  {
    hide FrozenRebalance, FrozenMark, FrozenStops, WellFormed, ChargedFor, Sum, Grown;
    MarkThenStop(env, t, st);
    RebalanceCharges(env, t, FrozenStops(env, t, FrozenMark(env, t, st)));
  }

  lemma {:induction false} FrozenReturnsAreDaily(env: Env, n: nat)
    requires WellFormed(env) && n <= |env.panel.dates|
    ensures |FrozenRun(env, n).dailyReturns| == if n == 0 then 0 else n - 1
  {
    hide FrozenRun, FrozenStep, WellFormed, ChargedFor, Grown;
    if n == 0 {
      FrozenStart(env);
    } else {
      FrozenReturnsAreDaily(env, n - 1);
      FrozenRunStep(env, n - 1);
      StepCharges(env, n - 1, FrozenRun(env, n - 1));
    }
  }

  ghost predicate GrownThenCharged(env: Env, before: FrozenState, after: FrozenState, r: real) {
    after.equity == before.equity * (1.0 + r) * (1.0 - CostRate(env.params) * (after.turnover - before.turnover))
  }

  lemma GrowsThenPays(env: Env, before: FrozenState, after: FrozenState, r: real)
    requires ChargedFor(env, after.equity, Grown(before.equity, r), after.turnover - before.turnover)
    ensures GrownThenCharged(env, before, after, r)
  {
  }

  /** A day of the earlier accounting, stops included: one return, then one charge for the turnover the day adds. */
  lemma FrozenDayFactorises(env: Env, t: nat)
    requires WellFormed(env) && t < |env.panel.dates|
    ensures var before, after := FrozenRun(env, t), FrozenRun(env, t + 1);
            && |after.dailyReturns| == t
            && after.equityCurve == before.equityCurve + [after.equity]
            && (t == 0 ==> ChargedFor(env, after.equity, before.equity, after.turnover - before.turnover))
            && (t > 0 ==>
                  && after.dailyReturns[..t - 1] == before.dailyReturns
                  && GrownThenCharged(env, before, after, after.dailyReturns[t - 1]))
  {
    hide FrozenRun, FrozenStep, WellFormed, ChargedFor, Grown, GrownThenCharged;
    FrozenReturnsAreDaily(env, t);
    FrozenRunStep(env, t);
    StepCharges(env, t, FrozenRun(env, t));
    var before, after := FrozenRun(env, t), FrozenRun(env, t + 1);
    if t > 0 {
      var r := after.dailyReturns[t - 1];
      assert ChargedFor(env, after.equity, Grown(before.equity, r), after.turnover - before.turnover);
      GrowsThenPays(env, before, after, r);
    }
  }

  /** One log line for each of these days, in order. */
  ghost predicate LogsDays(env: Env, log: seq<LogEntry>, days: seq<nat>)
    requires WellFormed(env) && AllInPanel(env, days)
  {
    |log| == |days| && forall k :: 0 <= k < |days| ==> LineSays(env, days[k], log[k])
  }

  lemma LogsOneMore(env: Env, log: seq<LogEntry>, days: seq<nat>, longer: seq<LogEntry>, i: nat)
    requires WellFormed(env) && AllInPanel(env, days) && LogsDays(env, log, days) && i < |env.panel.dates|
    requires |longer| == |log| + 1 && longer[..|log|] == log && LineSays(env, i, longer[|log|])
    ensures AllInPanel(env, days + [i]) && LogsDays(env, longer, days + [i])
  {
    hide LineSays, WellFormed;
    forall k | 0 <= k < |days| ensures longer[k] == log[k] {
      assert longer[..|log|][k] == longer[k];
    }
  }

  lemma {:induction false} FrozenLogIsExact(env: Env, n: nat)
    requires WellFormed(env) && Increasing(env.rebalance) && n <= |env.panel.dates|
    ensures var (st, days) := (FrozenRun(env, n), FilledDays(env.rebalance, 0, n));
            AllInPanel(env, days) && LogsDays(env, st.log, days)
  {
    hide FrozenRun, FilledDays, WellFormed, Decide, LineSays;
    if n == 0 {
      NothingFilledAtFirst(env.rebalance, 0);
      FrozenStart(env);
    } else {
      FrozenLogIsExact(env, n - 1);
      DayReports(env, n - 1);
      FilledDaysGrow(env.rebalance, 0, n - 1);
      hide LogsDays, AllInPanel;
      var before := FilledDays(env.rebalance, 0, n - 1);
      if n - 1 in env.rebalance {
        LogsOneMore(env, FrozenRun(env, n - 1).log, before, FrozenRun(env, n).log, n - 1);
      } else {
        assert before + [] == before;
      }
    }
  }

  lemma {:induction false} FrozenCountsAreExact(env: Env, n: nat)
    requires WellFormed(env) && Increasing(env.rebalance) && n <= |env.panel.dates|
    ensures var (st, days) := (FrozenRun(env, n), FilledDays(env.rebalance, 0, n));
            && AllInPanel(env, days)
            && st.rebalances == |days| && st.supportedRebalances == Supported(env, days)
            && st.investedFrom == (if |days| == 0 then None else Some(days[0]))
            && |st.invested| == (if |days| == 0 then 0 else n - days[0])
  {
    hide FrozenRun, FilledDays, WellFormed, Decide, Supported, LineSays;
    if n == 0 {
      NothingSupported(env);
      NothingFilledAtFirst(env.rebalance, 0);
      FrozenStart(env);
    } else {
      FrozenCountsAreExact(env, n - 1);
      DayReports(env, n - 1);
      FilledDaysGrow(env.rebalance, 0, n - 1);
      var before := FilledDays(env.rebalance, 0, n - 1);
      assert |before| > 0 ==> before[0] in before;
      if n - 1 in env.rebalance {
        SupportedAppend(env, before, n - 1);
      } else {
        assert before + [] == before;
      }
      hide AllInPanel;
    }
  }

  /**
   * The earlier accounting fills every scheduled day at once: it logs each with its decided weights and supports,
   * counts it, and from the first on records the invested fraction of every day.
   */
  lemma FrozenReportIsExact(env: Env, n: nat)
    requires WellFormed(env) && Increasing(env.rebalance) && n <= |env.panel.dates|
    ensures var (st, days) := (FrozenRun(env, n), FilledDays(env.rebalance, 0, n));
            && AllInPanel(env, days)
            && |st.log| == |days| == st.rebalances
            && (forall k :: 0 <= k < |days| ==> LineSays(env, days[k], st.log[k]))
            && st.supportedRebalances == Supported(env, days)
            && st.investedFrom == (if |days| == 0 then None else Some(days[0]))
            && |st.invested| == (if |days| == 0 then 0 else n - days[0])
  {
    hide FrozenRun, FilledDays, WellFormed, Decide, Supported, LineSays;
    FrozenLogIsExact(env, n);
    FrozenCountsAreExact(env, n);
  }
}
