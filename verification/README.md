# Signal Ledger: verified core

Signal Ledger turns human-accepted research claims into long-only strategies, backtests them in a Python
service, and runs those backtests as leased jobs from a Go worker that stores each run with the ranking it
proposes. This project models the parts where that is hard to get right and proves what they promise.

`dafny verify dfyconfig.toml` checks everything.

## How the model is organised

**The engine** (`python/quant_service/backtest.py`)

- `Calendar` - dates, ISO weeks, rebalance schedules. `Claims` - wire signals, live windows, netted support.
- `Ranking`, `Selection` - tie-sharing ranks, tilted scores, top of the ranking, weights. `SelectionLaws` - what they
  promise.
- `Ledger` - dictionaries of amounts, and the trade to a target. `Market` - panel and parameters.
- `Drift` - the day loop: the method `SimulateDrift` is proved equal to the day-by-day semantics `Run`, about which
  the other modules reason. `OrderQueue`, `Solvency`, `StopLoss`, `NoLookahead`, `Proposal`, `Tally` - what every run
  keeps. `LedgerLaws` - the value traded as one sum.
- `ConstantWeights`, `FreeRebalance`, `FrozenStops`, `FrozenTally` - the frozen earlier accounting, what it amounts
  to, and what it reports.
- `Benchmark`, `Basket`, `EqualWeight` - the buy-and-hold baseline and its closed form, relative metrics, drawdown.
- `Simulation` - a backtest from raw inputs: refusals, preparation, and no look-ahead end to end.
- `Tilt` and `Acceptance` - two exact bounds over all requests under a spec: how far claims can tilt a ranking, and
  when the store takes what is proposed. `Ladder` builds the requests that reach them.

**The worker and the store** (`internal/jobs`, `internal/store`, `internal/domain`)

- `JobQueue` - the jobs table as a class with its three statements. `LeaseProtocol` - every interleaving of leases,
  reports, crashes and the clock. `Exclusion` - exactly when two live workers can hold one job.
- `RunStore` - the run and candidate tables as a class with its transactions, and the checks on a result.
  `RunCompletion` - every interleaving of executions of one run's job, statement by statement. `Workers` - the queue
  and such a run together.

**Signal projection** (`internal/strategies/signals.go`) - `SignalProjection`; `SignalIntake` joins it to the engine.

`Text`, `Sorting`, `Reals` and `Options` hold the string order, sorted sequences and counts, products of reals, and
optional values.

## Modelling choices

- Floating point is exact `real`; only the returned ranking is rounded. `math.fsum` makes this fair for the sums of
  the drift engine.
- A Python dictionary is a sequence of entries in insertion order where its order can matter (the book: two exits on
  one day are charged one after the other), and a map otherwise.
- A panel has one column per symbol with one bar per date; a bar the snapshot cannot price is `None`. Theorems about
  money assume that priced bars are strictly positive.
- Parameters range as validated: cap in (0, 1], cost in [0, 1000] bps, stop in (0, 1], lag in 0..5, signal weight in
  [0, 5] (`ValidParams`).
- The jobs table has one clock, in whole seconds. Each statement or transaction is one step.
- A run's row, ranking, artifact and executions form one state; a store call that reports an error may or may not have
  taken effect.
- The engine service, the snapshot, the claims and storage keys are inputs: any result may come back, any key may be
  drawn that is not in use.

## Findings

Where code and its comments disagree, the model follows the code.

- `CompleteJob` and `FailJob` test only that a job is leased, not by whom. A worker whose lease ran out can complete
  the job under the worker that took it over (`Exclusion.LateReportsAreMisjudged`): a report ends its own lease if and
  only if the attempt number of its copy is still the row's (`Exclusion.ReportEndsTheHoldersLease`). Its late failure
  can let a third worker in beside the second, both with a running lease (`Exclusion.LateFailureLetsTwoWorkersIn`).
  Exactly one kind of report does the latter: a failure from a copy with attempts left, on a leased row, while another
  worker is live on the job under a lease that outlasts the retry delay. A run without such a report never has two
  live workers on one job, and one with it can always get there (`Exclusion.ExclusionIsExactlyCare`). Reporting in
  time is enough (`Exclusion.MutualExclusion`) but more than is needed.
- The bound on attempts needs no such discipline: a job is never leased more than `max_attempts` times beyond its
  expired leases, and at most `max_attempts` reports on it are ever accepted (`LeaseProtocol.AttemptsAreBounded`).
- `internal/store/backtest.go:122-127` says a retried job cannot overwrite a finished one. The guard in
  `CompleteBacktest` does hold for results, but `SetBacktestStatus` has no guard, so a finished run can fall back to
  `running` or `failed`. It cannot if executions of its job do not overlap, an errored store call had no effect and
  the initial status lookup succeeds (`RunCompletion.CompletedIsFinal`); dropping any one of the three breaks it
  (`RunCompletion.EachAssumptionIsNeeded`). A finished run can fall back through the executions already under way if
  and only if one of them is between its lookup and marking the run running, or is on its last attempt
  (`RunCompletion.CompletedIsSafeUnlessThreatened`). Workers that take no step after their lease runs out do not
  overlap, so lease discipline gives the first assumption (`Workers.DisciplineMakesCompletedFinal`). The run and its
  ranking agree even then (`RunCompletion.RunAndRankingAgree`).
- In rank space, the claims of some request can reorder two of a decision's n eligible names with different returns if
  and only if the gates let two different returns through and `claim_signal_weight * (n - 1) >= 1`. With
  `require_claim_support` every eligible name has positive support: the bound becomes `> 2`, and at a
  `claim_confidence` of one, where every support is full, no claims can reorder anything (`Tilt.TiltBoundIsSharp`).
- An unsupported schedule is refused exactly when there is a bar after the lookback
  (`Simulation.UnknownScheduleIsNoticedLate`); on a shorter panel the same spec runs and never trades
  (`Simulation.UnscheduledRunNeverTrades`), under either accounting.
- The engine rounds weights to eight decimals and the store refuses a weight of zero. A spec whose gates let anything
  through is safe for every request over fewer than 2e8 symbols if and only if its cap exceeds 5e-9; at or below it, a
  concrete run proposes a name and is refused (`Acceptance.StorableExactlyAboveTheSmallestCap`,
  `Acceptance.TinyCapIsRefused`).

## Model

| member | source | states |
|---|---|---|
| `Simulation.TheFutureIsInvisible` | python/quant_service/backtest.py:302-341 | Two backtests of one spec whose universe columns hold the same closes on days 0 to t, whose dates agree, and whose wire lists hold the same items as often among those effective before the end of day t have the same book, pending orders, curve, turnover, log and ranking on each of the first t + 1 days, under either accounting; other columns and the order of the wire list do not show. |
| `Simulation.LaterResearchCannotMoveTheRun` | internal/jobs/worker.go:220-223 | Through both services: two sets of stored claims that agree on what is effective by the end of day t give the same first t + 1 days, and neither is refused. |
| `Simulation.SignalOrderIsForgotten` | python/quant_service/backtest.py:905-955 | Permuting the signals of a request neither refuses the run nor changes anything in it, its drawdown or its figures against either baseline. |
| `Simulation.Simulate` | python/quant_service/backtest.py:302-386 | The whole backtest: refused for an empty or blank universe, a bad signal, a symbol without a column or an unknown schedule, in that order; otherwise the run under the chosen accounting with its figures, every drawdown being the worst fall between any two points of its own positive curve. |
| `Simulation.WhatIsReported` | python/quant_service/backtest.py:326-386 | The run is that of the chosen accounting; the equal-weight baseline covers the universe and the benchmark exactly a named symbol with a column, in the universe or not; both are bought on the run's own first fill day and its returns are measured against theirs. |
| `Simulation.RefusalsComeInOrder` | python/quant_service/backtest.py:308-325 | Exactly which universes are refused and for what; a coverage refusal lists exactly the symbols without a column, ascending; a schedule refusal means an unsupported schedule and a bar past the lookback; a run that gets that far has every symbol named and covered. |
| `Simulation.PreparedKeepsTheSpec` | python/quant_service/backtest.py:308-323 | The prepared run keeps every parameter and exactly the universe's columns bar for bar; without a count of names it takes three, or the universe if smaller. |
| `Simulation.PreparedIsWellFormed` | python/quant_service/backtest.py:308-323 | What reaches the day loop: exactly the named symbols, all covered by the snapshot, signals sorted, and the scheduled days exact. |
| `Simulation.ScheduleIsExact` | python/quant_service/backtest.py:324-325 | The rebalance days of a run are the earliest bars of each period key at or after the lookback, ascending; none for an unknown schedule. |
| `Simulation.ScheduleReadsTheCalendar` | python/quant_service/backtest.py:994-1010 | A bar is scheduled if and only if the lookback is full and no earlier bar from then on has the same year and month, the same year and three-month range, or the same Monday of its week, by schedule. |
| `Simulation.UnknownScheduleIsNoticedLate` | python/quant_service/backtest.py:997-1006 | A request that only its unknown schedule can spoil is refused, for that schedule, if and only if the panel has a bar after the lookback. |
| `Simulation.UnscheduledRunNeverTrades` | python/quant_service/backtest.py:429-543 | A run with no scheduled day stays in cash worth one on every day under either accounting, with no order, fill, turnover, log line or ranking. |
| `Simulation.UniverseSymbols` | python/quant_service/backtest.py:700-722 | Refuses an empty list and a blank item, and otherwise computes the sorted, deduplicated, trimmed universe. |
| `Simulation.UniverseIsExact` | python/quant_service/backtest.py:713-722 | The universe holds exactly the trimmed names, strictly ascending, never blank and never empty. |
| `Simulation.UniverseForgetsOrder` | python/quant_service/backtest.py:703-705 | Listing the same symbols in another order, or repeatedly, authorizes the same universe. |
| `Text.LessIsAlphabetical` | python/quant_service/backtest.py:720-722 | The order of symbols: the first differing character decides, and a proper prefix comes first. |
| `Text.TrimIsExact` | python/quant_service/backtest.py:713-718 | Trimming removes exactly the leading and trailing blanks. |
| `NoLookahead.RunsAgree` | python/quant_service/backtest.py:389-556 | The same for prepared inputs, stated on the raw columns and signals: every variable of the day loop agrees through day t, by induction over the days. |
| `NoLookahead.FillsWereFixedByTheDecisionDay` | python/quant_service/backtest.py:458-481 | The orders filled on a day, with their target weights, are fixed by inputs up to that day minus the lag. |
| `NoLookahead.FrozenRunsAgree` | python/quant_service/backtest.py:588-697 | The frozen earlier accounting cannot look ahead either. |
| `Drift.SimulateDrift` | python/quant_service/backtest.py:389-556 | The day loop ends with every variable as the day-by-day semantics says, whose properties are proved below. |
| `Drift.MarkToMarket` | python/quant_service/backtest.py:433-438 | Marks each held value by its own day's growth and leaves an unpriced name alone. |
| `Drift.SendStops` | python/quant_service/backtest.py:446-456 | The loop over the book queues the exits of the day and marks their names; which names those are is `StopLoss.ExitsAreIssuedForTheFallen`. |
| `Drift.SplitDue` | python/quant_service/backtest.py:479-481 | Splits the queue into what is due and what is not, each in order. |
| `OrderQueue.QueueHoldsTheLastDays` | python/quant_service/backtest.py:479-481 | After any number of days the queue is exactly what the last lag days issued, in decision order. |
| `OrderQueue.DueIsOneDay` | python/quant_service/backtest.py:474-482 | What fills on day t is all that day t - lag issued, in that order, and nothing else; so every order fills exactly lag days after its decision. |
| `OrderQueue.LogIsTheFilledSchedule` | python/quant_service/backtest.py:501-523 | The holdings log is exactly the scheduled days whose fill lies inside the panel, in order, each with its own decision and fill date; the rebalance count is its length. |
| `Tally.LogLineSays` | python/quant_service/backtest.py:512-529 | A log line carries its decision date, its fill date, and for each position in order its target weight and its support. |
| `Tally.TallyIsExact` | python/quant_service/backtest.py:510-543 | The first fill is that of the first scheduled decision; the supported rebalances are the filled decisions that saw a live claim; from the first fill on every day records one invested fraction. |
| `Tally.DecisionNotesLiveClaims` | python/quant_service/backtest.py:461-473 | A decision notes support if and only if some resolved signal is live that day. |
| `Tally.InvestedIsTheHeldShare` | python/quant_service/backtest.py:538-543 | The fraction a day records times that day's equity is the value held. |
| `Solvency.EveryDayIsSound` | python/quant_service/backtest.py:429-543 | After every day: equity = cash + holdings, cash >= 0, equity > 0, every holding positive, once and in the universe, entry prices positive and only for held names, invested fractions in [0, 1]. |
| `Solvency.MarkFollowsTheCloses` | python/quant_service/backtest.py:433-438 | Marking moves a holding with its column: new value * previous close = old value * close. |
| `Solvency.UnpricedKeepsItsValue` | python/quant_service/backtest.py:430-438 | A holding without a close on either day keeps its value. |
| `Solvency.EveryFillIsSound` | python/quant_service/backtest.py:482-501 | The same after each single fill of a day; so no fill meets the branch that drops a worthless book. |
| `Solvency.FillAllIsSound` | python/quant_service/backtest.py:482-536 | Filling any list of long-only orders from a sound book leaves a sound book, and lowers equity by exactly the product of (1 - rate * turnover) over its trades, adding those turnovers to the total. |
| `Solvency.FillExitIsSound` | python/quant_service/backtest.py:483-499 | A stop exit keeps the book sound and charges exactly the value sold, or nothing when there is nothing to sell. |
| `Solvency.FillRebalanceIsSound` | python/quant_service/backtest.py:501-509 | A rebalance keeps the book sound, lands on exactly the target weights of what is left, and charges exactly the value traded. |
| `Solvency.RebalanceIsLast` | python/quant_service/backtest.py:474-500 | A day that fills a rebalance closes with each holding at exactly target weight times equity, the rest in cash, and that decision's ranking as the proposal. |
| `Solvency.EquityFactorises` | python/quant_service/backtest.py:440-501 | Equity is the product of (1 + daily return) times the product over fills of (1 - rate * that fill's turnover); total turnover is the sum of those turnovers, each in [0, 2]; the curve ends in it. |
| `Solvency.CurveFactorises` | python/quant_service/backtest.py:440-543 | Every point of a finished run's curve is the equity its day closed with, and factorises into the run's own first returns and the charges of the fills up to that day. |
| `Solvency.CostFloor` | python/quant_service/backtest.py:577-585 | Equity lies between the compounded returns and those times (1 - rate * turnover so far). |
| `Solvency.WeierstrassProduct` | python/quant_service/backtest.py:577-585 | The product of what each charge keeps is at least one minus the sum of the charges. |
| `Solvency.CurveIsPositive` | python/quant_service/backtest.py:543 | Every point of every equity curve is positive. |
| `Ledger.ApplyTargetBalances` | python/quant_service/backtest.py:559-585 | A trade to long-only weights from a balanced book books a balanced one at exactly those weights, charged exactly rate times the value traded. |
| `Ledger.TradedAtMostTwice` | python/quant_service/backtest.py:577-582 | A rebalance trades at most twice the book. |
| `LedgerLaws.TradedIsTheGapSum` | python/quant_service/backtest.py:577-580 | The value traded is the sum over all named symbols, each once, of the distance between wanted and held value, in any order. |
| `LedgerLaws.RebalanceChargesTheGaps` | python/quant_service/backtest.py:577-585 | A rebalance lowers equity by the cost rate times that sum, and its turnover times the equity before is that sum. |
| `Ledger.RemoveSum` | python/quant_service/backtest.py:492-495 | Selling a name takes its amount, and nothing else, out of the book. |
| `StopLoss.ExitsAreTracked` | python/quant_service/backtest.py:446-456 | After any number of days, the names marked as exiting are exactly those of the queued exits, each queued once. |
| `StopLoss.FallingNameHasOneExit` | python/quant_service/backtest.py:447-456 | On a day a held name closes at or below (1 - stop) times its close on the day the last rebalance filled, exactly one exit for it is in flight, decided that day or on one of the last lag days. |
| `StopLoss.ExitIsProcessed` | python/quant_service/backtest.py:483-497 | When the exit's day comes, it is filled: the name leaves the book, cash gains the proceeds, equity loses the cost and turnover gains the sale, with nothing charged if the name was not held. |
| `StopLoss.FallingNameLeavesInTime` | python/quant_service/backtest.py:442-499 | A held name that closes at or below (1 - stop) times its close on the last fill day is out of the book, any sale charged and counted, within lag days, if the panel lasts. |
| `StopLoss.EntryIsThePricePaid` | python/quant_service/backtest.py:502-509 | After every day, each held name carries as its entry price the close of the day the last rebalance filled, if it was priced then, and no other name carries one; so a stop measures from the fill, not the decision. |
| `StopLoss.StopIsMeasuredFromTheFill` | python/quant_service/backtest.py:450-452 | For every held name the stop is hit if and only if both closes are there and today's is at or below (1 - stop) times that of the last fill day. |
| `StopLoss.ExitsAreIssuedForTheFallen` | python/quant_service/backtest.py:446-456 | A day issues an exit for a name if and only if it is held, has fallen that far, and has no exit in flight. |
| `Proposal.ProposalIsTheLastFill` | python/quant_service/backtest.py:530-534 | The ranking a run proposes is that of its last filled rebalance, as decided then; before the first fill it proposes nothing. |
| `Proposal.FrozenProposalIsTheLastDecision` | python/quant_service/backtest.py:653-680 | The earlier accounting proposes the ranking of its last scheduled decision, and nothing before the first. |
| `Proposal.ProposalIsAccountable` | python/quant_service/backtest.py:741-774 | Under either accounting a proposal names one scheduled day; each position, ranked by its place, has (1 + momentum) * the close a lookback before = the close of that day, passes every gate, has score = momentum rank + weight * support, support = its listed contributions summed and clamped to [-1, 1], and lists exactly the claims live that day. |
| `Proposal.EngineOutputIsAccepted` | internal/domain/candidate.go:49-68 | At any point of any run under either accounting the ranking the engine returns, rounded to eight decimals, stays in the universe, and committing it to a run in progress succeeds if and only if it is empty, or the cap exceeds 5e-9 and it has fewer than 2e8 names. |
| `Proposal.RoundingIsNearest` | python/quant_service/backtest.py:756-770 | Rounding gives a nearest multiple of 1e-8, and of two equally near the even one. |
| `Proposal.RoundingMovesLittle` | python/quant_service/backtest.py:741-774 | The returned ranking keeps date, order, symbols, ranks and claims, and every number within 5e-9 of its own. |
| `Acceptance.StorableExactlyAboveTheSmallestCap` | python/quant_service/backtest.py:756-770 | For a spec whose gates let some return through: the store takes what every request over fewer than 2e8 symbols proposes, at every point of its run, if and only if the cap exceeds 5e-9. |
| `Acceptance.TinyCapIsRefused` | internal/domain/candidate.go:63-65 | For every such spec with a cap of 5e-9 or less, a concrete request whose run proposes a name and is refused. |
| `Calendar.RebalanceIndices` | python/quant_service/backtest.py:994-1010 | The loop picks, in order, each bar at or after the minimum index that is the first or whose key differs from the bar before, or refuses an unknown schedule. |
| `Calendar.PeriodStartsAreExact` | python/quant_service/backtest.py:997-1009 | On ascending dates the picks are exactly the bars whose period has no earlier bar at or after the minimum index, each once. |
| `Calendar.PeriodStartsArePointInTime` | python/quant_service/backtest.py:997-1009 | Which of the first n bars are picked depends on those bars only. |
| `Calendar.IsoKeyIsTheWeek` | python/quant_service/backtest.py:999-1000 | Two days share an ISO year and week (section 4.1.4 of ISO 8601:2004) exactly when they share the Monday, and later weeks have later keys, across year ends. |
| `Calendar.KeysAreCalendarPeriods` | python/quant_service/backtest.py:997-1003 | Two days share a key if and only if they share the year and month, the year and the range of months 1-3, 4-6, 7-9 or 10-12, or the Monday. |
| `Calendar.NextDayIsNumberedNext` | python/quant_service/backtest.py:999-1000 | Day numbers follow the calendar: the next day has the next number, across month, year and leap-year ends. |
| `Claims.NormalizeSignals` | python/quant_service/backtest.py:905-955 | Drops undirected, untradable and low-confidence signals, refuses at the first invalid one, resolves the rest to windows and sorts them. |
| `Claims.KeptItems` | python/quant_service/backtest.py:922-953 | An item is kept if and only if it is directed, trims to a universe symbol, has a confidence in [0, 1] at or above the floor, a horizon of a day or more (its own, else the default) and a timestamp; it is then live from its UTC day for that many days with its confidence signed by direction. |
| `Claims.NormalizedIsListedInOrder` | python/quant_service/backtest.py:954 | Resolved signals are listed by symbol, effective day, claim and score. |
| `Claims.DaysAreCountedFromTheEpoch` | python/quant_service/backtest.py:958-971 | Second 0 is day 719163, a day lasts 86400 seconds, and earlier instants round down. |
| `Claims.ActiveClaims` | python/quant_service/backtest.py:974-981 | Groups exactly the claims live on the day by symbol, in sorted order. |
| `Claims.LiveForIsExact` | python/quant_service/backtest.py:974-981 | A symbol's live signals are exactly its own with effective <= day < expires. |
| `Claims.SupportIsClampedNet` | python/quant_service/backtest.py:984-991 | A symbol's support is the sum of its own live signed confidences clamped to [-1, 1], zero without any. |
| `Claims.SameEffectiveSameActive` | python/quant_service/backtest.py:954-981 | Sorted lists that agree as collections on what is effective by a day show every earlier day the same contributions in the same order, even where entries tie on the whole sort key. |
| `SignalIntake.CollectForgetsOrder` | python/quant_service/backtest.py:922-953 | Whether a wire list is refused, and what it resolves to, do not depend on its order. |
| `SignalIntake.VisibleIsEffective` | python/quant_service/backtest.py:944-953 | Resolving the items effective by a day gives the resolved signals effective by that day. |
| `SignalIntake.ProjectedSignalsAreTaken` | internal/strategies/signals.go:28-39 | The engine never refuses signals that the projection built from valid claims. |
| `SignalIntake.LaterResearchIsInvisible` | internal/strategies/signals.go:50-60 | Two sets of claims that agree on what is effective before a second project to wire lists that hold the same items, as often, among those effective before it. |
| `Ranking.MomentumRanks` | python/quant_service/backtest.py:1070-1097 | The sort-and-group loop gives each name (number strictly below - number strictly above) / (n - 1), and zero to a lone name. |
| `Ranking.RanksOrderAsMomentum` | python/quant_service/backtest.py:1071-1079 | Ranks lie in [-1, 1] and order names exactly as returns do, different returns at least 2 / (n - 1) apart. |
| `Ranking.RanksSumToZero` | python/quant_service/backtest.py:1093-1095 | The ranks of a cross-section sum to zero. |
| `Ranking.RanksForgetOrder` | python/quant_service/backtest.py:1086 | Permuting the cross-section changes no rank. |
| `Ranking.RanksIgnoreScale` | python/quant_service/backtest.py:1073-1077 | Any strictly increasing rescaling of the returns changes no rank. |
| `Selection.Select` | python/quant_service/backtest.py:1013-1067 | The selection loop computes the eligible cross-section in symbol order and returns the top of its ranking with weights. |
| `Selection.EligiblesComeFromSymbols` | python/quant_service/backtest.py:1022-1036 | The cross-section holds exactly the universe names that qualify, each once. |
| `SelectionLaws.QualifiesExactly` | python/quant_service/backtest.py:1022-1036 | With both closes there and the past one positive, a name qualifies, with return (current - past) / past and its support, if and only if the return satisfies every gate and required support is positive. |
| `SelectionLaws.UnpricedDoesNotQualify` | python/quant_service/backtest.py:1022-1026 | Without both closes, or with a past close that is not positive, a name does not qualify. |
| `SelectionLaws.NamesHeld` | python/quant_service/backtest.py:1100-1117 | `cash` holds at most top_n names, and fewer only when it holds all eligible; `extend` leaves a name out only at top_n or more and 1/cap - 1e-9 or more, and goes past top_n only while one fewer would be below 1/cap - 1e-9. |
| `SelectionLaws.ChosenAreTheBest` | python/quant_service/backtest.py:1046-1067 | Each chosen position carries an eligible name's own return and support, with score = momentum or its rank + weight * support; positions are listed by score descending then symbol, and every chosen one outranks every eligible name left out. |
| `SelectionLaws.PlaceIsBeatCount` | python/quant_service/backtest.py:1050-1051 | A name's place is the number of names that beat it. |
| `SelectionLaws.TargetIsLongOnly` | python/quant_service/backtest.py:1056-1067 | Target weights are the lesser of the cap and one over the number held, positive, on distinct names, and sum to at most one. |
| `SelectionLaws.StrongerClaimsKeepTheirName` | python/quant_service/backtest.py:1033-1053 | Raising one chosen name's support, all else fixed, keeps it chosen at no worse a place. |
| `SelectionLaws.ExtendFillsTheBook` | python/quant_service/backtest.py:1100-1117 | Under `extend` the weights sum to between 1 - 1e-9 and 1 if there are names enough; otherwise every eligible name sits at exactly the cap and the total, count times cap, is below one. |
| `Tilt.TiltBoundIsSharp` | python/quant_service/backtest.py:905-1097 | Over all requests under a spec, from the wire list to the decision: some decision among n eligible names has two of them reordered against their returns if and only if the gates leave a choice and weight * (n - 1) >= 1, or, where support is required, > 2 with a confidence floor below one. |
| `ConstantWeights.SimulateConstantWeights` | python/quant_service/backtest.py:588-697 | The frozen loop ends with every variable as its day-by-day semantics says, stops zeroed for free included. |
| `FrozenStops.RecordIsTheLastDecision` | python/quant_service/backtest.py:653-680 | The earlier accounting's entry prices are the bars, priced or missing, of its last scheduled day. |
| `FrozenStops.StopsZeroTheFallen` | python/quant_service/backtest.py:641-651 | On every day its stop zeroes, for free, exactly the weights whose close is at or below (1 - stop) times that of the last scheduled day, and counts those that were held. |
| `FrozenTally.FrozenDayFactorises` | python/quant_service/backtest.py:629-690 | Each of its days, stops included, multiplies equity by one plus the recorded return and then by one minus the rate times the turnover the day adds, and records both equity and return. |
| `FrozenTally.FrozenReportIsExact` | python/quant_service/backtest.py:653-690 | It logs every scheduled day in order, dated by the decision, with decided weights and supports; counts it; and from the first on records an invested fraction every day. |
| `FreeRebalance.FrozenIsAFreeRebalance` | python/quant_service/backtest.py:602-614 | Without a stop loss, for any panel and cost rate, the frozen accounting reports the equity curve, turnover and invested fractions of a drifting book that trades back to its last weights for free every day and is charged only when it rebalances. |
| `Benchmark.BuyAndHold` | python/quant_service/backtest.py:1209-1245 | The baseline loop: flat until the strategy's first fill, then an equal split of the priced names left to drift. |
| `Basket.BaselineIsTheBasket` | python/quant_service/backtest.py:1209-1245 | The baseline in closed form: one through the first fill day, then the sum of equal parts of one in the names priced that day, each grown bar by bar. |
| `Basket.WorthFollowsTheClose` | python/quant_service/backtest.py:1226-1236 | While a name is priced, its part times its first close is what was put in times its current close. |
| `Benchmark.BaselineSplitsAmongThePriced` | python/quant_service/backtest.py:1237-1242 | The baseline buys exactly the names with a close that day, in equal parts of its equity. |
| `Benchmark.MaxDrawdown` | python/quant_service/backtest.py:1158-1163 | For a positive curve the one-pass loop returns the least value_j / value_i - 1 over all i <= j, which lies in (-1, 0]. |
| `Benchmark.SelfComparison` | python/quant_service/backtest.py:1248-1287 | Returns that vary, measured against themselves, have beta one, alpha zero and no tracking error. |
| `Benchmark.LeveredComparison` | python/quant_service/backtest.py:1248-1287 | Returns that are c times the benchmark's plus d a day have beta c, annual alpha 252 * (d + (c - 1) * daily risk-free rate) and (c - 1)^2 times its sample variance as active variance. |
| `Benchmark.FlatComparison` | python/quant_service/backtest.py:1255-1275 | Unequal or too short series are not compared; against a benchmark that never moves beta is zero and alpha the mean excess return. |
| `EqualWeight.RunIsItsBaseline` | python/quant_service/backtest.py:1209-1245 | With every bar priced, no gates, no required support, room for the whole universe, no cost and no stop, the engine and the baseline report the same curve and returns through the second fill day, and for the whole run with one symbol. |
| `EqualWeight.SoloStrategyHasNoAlpha` | python/quant_service/backtest.py:1248-1287 | Such a one-symbol run has beta one, alpha zero and no tracking error against its universe. |
| `JobQueue.JobStore.LeaseNextJob` | internal/store/store.go:140-187 | Leases a waiting row that is due or a leased one that ran out, such that no other unlocked one was available sooner or at the same time created sooner; counts an attempt, records worker and expiry, keeps everything else and hands out the copy; leaves the table alone exactly when every unlocked row is withheld. |
| `JobQueue.JobStore.CompleteJob` | internal/store/store.go:189-201 | Completes the row exactly when it is leased, by whomever, clearing the lease and nothing else, and otherwise reports that it was not. |
| `JobQueue.JobStore.FailJob` | internal/store/store.go:204-238 | A leased row becomes failed and available now when the caller's copy has no attempts left, and otherwise retryable after the delay of that copy's attempts; the lease is cleared and nothing else changes. Any other row is refused. |
| `JobQueue.JobStore.RunOne` | internal/jobs/worker.go:77-107 | One turn that nobody cuts into: leases the next job in line and completes it, or fails it terminally exactly on its last attempt. |
| `JobQueue.BackoffDoubles` | internal/store/store.go:384-393 | The retry delay doubles from one second and stays at sixty-four. |
| `LeaseProtocol.EveryReachableTableIsConsistent` | internal/store/store.go:140-238 | In every interleaving, with stale workers and crashes: a row is leased iff it has a holder and an expiry; attempts equals the leases taken, and equals expired leases taken over plus accepted reports plus the current lease; failed implies attempts >= max; a copy's attempts never exceed the row's. |
| `LeaseProtocol.TerminalIsAbsorbing` | internal/store/store.go:189-238 | No run changes anything in a completed or failed row. |
| `LeaseProtocol.AttemptsAreBounded` | internal/store/store.go:205-211 | Attempts never exceed max plus the expired leases; at most max reports are accepted, and the last of that many ends the job. |
| `LeaseProtocol.OnlyFreshLeasesSpendBudget` | internal/store/store.go:150-170 | max + expiries - attempts is never negative, drops by one when a waiting job is leased, and moves at no other step. |
| `LeaseProtocol.AnsweredJobsEnd` | internal/store/store.go:189-238 | When every worker that leased a job has reported, it has been leased at most max + expiries times, and if that often then it is completed or failed. |
| `LeaseProtocol.NeverStuck` | internal/store/store.go:150-157 | Any job not yet completed or failed can still be completed by waiting, one lease and one report. |
| `LeaseProtocol.RetryWaitsOutItsBackoff` | internal/store/store.go:207-222 | After a failure recorded for retry, no later lease of the job comes before the delay of the reported attempt has passed. |
| `LeaseProtocol.DisciplinedReportsCount` | internal/jobs/worker.go:88-99 | Under that discipline every report is accepted and judged on the row's own attempts. |
| `LeaseProtocol.WaitingHasAttemptsLeft` | internal/store/store.go:205-211 | Under that discipline a waiting job has attempts left. |
| `Exclusion.ExclusionIsExactlyCare` | internal/store/store.go:204-238 | For every run: at no point can passing time and further leases put two live workers on one job, if and only if no failure with attempts left is recorded on a leased row beside a live worker whose lease outlasts the retry delay. |
| `Exclusion.MutualExclusion` | internal/jobs/worker.go:77-107 | When every worker reports before its lease runs out or not at all, no two live workers ever hold the same job. |
| `Exclusion.DangerLetsAnotherIn` | internal/store/store.go:150-157 | After such a report, waiting out the delay and one lease put a second live worker on the job. |
| `Exclusion.ReportEndsTheHoldersLease` | internal/store/store.go:189-238 | At any point of any run, a report on a leased job ends the lease of its one holder, and the reporter is that holder if and only if its copy's attempts equal the row's. |
| `Exclusion.LateFailureLetsTwoWorkersIn` | internal/store/store.go:218-229 | A concrete run of three workers that ends with two of them live on one job. |
| `Exclusion.LateReportsAreMisjudged` | internal/store/store.go:189-201 | Concretely: a late success completes a job under its new holder, whose own report is then refused, and a late failure requeues a job whose attempts are used up. |
| `RunStore.Validate` | internal/domain/candidate.go:49-68 | Passes exactly the rankings that are dated, named, densely ranked from one and positive, or empty; otherwise names the first fault. |
| `RunStore.Symbols` | internal/domain/candidate.go:41-47 | Lists the proposed symbols in rank order. |
| `RunStore.MissingSymbols` | internal/strategies/spec.go:98-117 | The loop over two sets computes the specified list of missing symbols. |
| `RunStore.MissingIsExact` | internal/strategies/spec.go:94-97 | That list holds exactly the required symbols that are not available, once each, in the order they are first required. |
| `RunStore.AttributeClaims` | internal/store/backtest.go:190-199 | Inserts a position's evidence, skipping a claim already attributed. |
| `RunStore.ClaimsKeepTheFirst` | internal/store/backtest.go:190-199 | A claim listed twice is stored with the contribution listed first. |
| `RunStore.Runs.SetBacktestStatus` | internal/store/backtest.go:107-121 | Sets a known status whatever the old one was; refuses an unknown status or run and then changes nothing. |
| `RunStore.Runs.InsertCandidates` | internal/store/backtest.go:169-202 | Replaces the run's rows by those of the ranking, and fails exactly when a symbol repeats. |
| `RunStore.Runs.CompleteBacktest` | internal/store/backtest.go:128-167 | All or nothing: succeeds exactly for a valid ranking without repeats on a run in progress, then writes run and ranking together and no other run; otherwise changes neither table. |
| `RunStore.CommittedMeans` | internal/store/backtest.go:128-202 | A result is committed exactly for a queued or running run, which becomes completed with the result's checksum, version and key and one row per position, column for column. |
| `RunCompletion.RunAndRankingAgree` | internal/jobs/worker.go:174-276 | In every interleaving, checksum, engine version, summary, artifact key and candidate rows all come from one returned result, the artifact under the key is that result's curve, and `failed` means some execution had used up its attempts. |
| `RunCompletion.StoredRankingIsAnswerable` | internal/jobs/worker.go:240-252 | Stored candidates are densely ranked, positive, distinct and inside the universe, and neither they nor `completed` exist without checksum, engine version and artifact. |
| `RunCompletion.CompletedIsFinal` | internal/store/backtest.go:122-127 | When executions do not overlap, an errored store call had no effect and the lookup succeeds, nothing of a completed run or its ranking ever changes. |
| `RunCompletion.EachAssumptionIsNeeded` | internal/jobs/worker.go:189-206 | Dropping any one of the three and keeping the others, some run leaves `completed`. |
| `RunCompletion.CompletedIsSafeUnlessThreatened` | internal/jobs/worker.go:189-226 | From a completed run, the executions under way can leave `completed` if and only if one of them is past its lookup and about to mark the run running, or is unfinished on its last attempt; otherwise nothing of the run or its ranking changes. |
| `Workers.DisciplineMakesCompletedFinal` | internal/jobs/worker.go:77-107 | In any run of the queue with any other jobs, when workers take no step and no report after their lease runs out, an errored store call had no effect and lookups succeed, nothing of a completed run or its ranking ever changes. |
| `SignalProjection.ClaimThemes` | internal/strategies/signals.go:89-102 | Exactly the themes some keyword of which occurs in the lowered text or quote, in table order. |
| `SignalProjection.ClaimSymbols` | internal/strategies/signals.go:18-27 | A claim's trimmed ticker if it has one, otherwise the proxies of its themes. |
| `SignalProjection.SymbolsAreNamed` | internal/strategies/signals.go:18-27 | A claim never speaks to a blank symbol. |
| `SignalProjection.SymbolsAreExact` | internal/strategies/signals.go:18-27 | A claim speaks to a symbol if and only if that is its trimmed ticker or, without one, a proxy of a theme some keyword of which stands, letter case of the text aside, at some place of its text or quote. |
| `SignalProjection.BuildSignals` | internal/strategies/signals.go:40-86 | The nested loops with their seen set, then the sort, compute the projection. |
| `SignalProjection.ProjectionIsExact` | internal/strategies/signals.go:28-86 | The projection holds, for each claim that passes and each tradable symbol it speaks to (of claims sharing an identifier, the first), one signal, strictly sorted. |
| `SignalProjection.ProjectionIsTheCrossProduct` | internal/strategies/signals.go:48-72 | With one claim per identifier: a signal is projected if and only if some claim is accepted, not neutral, effective by the cutoff, speaks to its symbol in the universe, and says what the signal says, field by field. |
| `SignalProjection.NothingPassesTheCutoff` | internal/strategies/signals.go:54-56 | Whatever the claims' identifiers, every projected signal is directed, on a universe symbol, and effective at the cutoff or before. |
| `SignalProjection.ResearchAfterTheCutoffIsIgnored` | internal/strategies/signals.go:48-60 | Claims that agree on what is effective by the cutoff project identically. |
| `SignalProjection.SignalsAreListedInOrder` | internal/strategies/signals.go:74-86 | Signals are listed by symbol, those of one symbol by time, those of one time by claim. |
| `SignalProjection.ProjectionForgetsOrder` | internal/strategies/signals.go:37-39 | Neither the order of the claims nor that of the universe changes it. |

## Left out

- Rounding other than that of the returned ranking, checksums and CSV bytes: a checksum is whatever the engine
  returned with its curve.
- The float sums of the frozen accounting depend on set order in Python; over reals they do not.
- Snapshot parsing and the pivot into columns: the model starts from dates and columns. The pivot takes the union of
  all dates, so a surplus symbol with its own trading days may add rows; `Simulation.TheFutureIsInvisible` says only
  that surplus columns over the same dates do not matter.
- A missing bar and a missing column read alike in `Bar`; coverage is checked before any run.
- `_engine_params`: parsing the spec and run parameters, and its engine-version rules; the model takes valid
  parameters.
- `Simulation.Simulate`: CAGR, Sharpe, volatility and the information ratio, which take powers and roots. Tracking
  error appears as the variance it is the root of.
- The cap between fills: drift may carry a position past it, and the code promises it only at fills.
- Claims of one live group are kept as (claim, contribution) pairs; their windows play no part once they are live.
- Case folding and white space outside ASCII, and timestamps finer than a second.
- Document extraction and market-data jobs, document status, payload decoding: the queue does not depend on them.
- `JobQueue.JobStore.RunOne`: one turn without interference and without store errors; interference and lost reports
  are in `LeaseProtocol`, document status is not modelled.
- Which leasable row a lease takes is fixed in `JobQueue.JobStore.LeaseNextJob`; `LeaseProtocol` lets a lease take
  any, so its theorems hold for every order and every set of locked rows.
- The spelling of symbols and slugs that `Spec.Validate` accepts: the engine takes any symbol, and so do the bounds
  over all requests.
- Foreign keys of candidate rows: attributed claims are taken to exist.
- `BuildDraft` and `Spec.Validate`: branch-by-branch checks. HTTP handlers, configuration, file stores and migrations:
  I/O.
