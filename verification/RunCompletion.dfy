/**
 * Executions of one run's job, interleaved statement by statement: each looks the run up, marks it running, asks
 * the engine, checks and saves what it got, and commits; an error on the last attempt marks the run failed.
 */
module RunCompletion {
  import opened Options
  import opened Drift
  import opened RunStore
  import JobQueue
  import Sorting

  /** Where an execution stands: what it does next. */
  datatype Phase =
    | LookingUp
    | Preparing
    | Marking
    | Computing
    | Checking(result: BacktestResult)
    | Committing(result: BacktestResult, key: string)
    | Failing
    | Over

  datatype Exec = Exec(job: JobQueue.Job, phase: Phase)

  /** The run, the artifact volume, the executions, and the results the engine has returned so far. */
  datatype World = World(
    universe: seq<string>, book: Book, artifacts: map<string, string>, execs: seq<Exec>, returned: seq<BacktestResult>)

  /** How the outside answers a step; a store call that errs may still have taken effect. */
  datatype Answer = Works | Returns(result: BacktestResult) | Saved(key: string) | Errs(tookEffect: bool)

  datatype Event = Begin(job: JobQueue.Job) | Proceed(k: nat, answer: Answer) | Crash(k: nat)

  function Start(strategyId: string, universe: seq<string>): World {
    World(universe, Book(NewRun(strategyId), []), map[], [], [])
  }

  /** Storage keys are freshly generated. */
  predicate Enabled(w: World, e: Event) {
    match e
    case Begin(_) => true
    case Proceed(k, answer) => k < |w.execs| && !w.execs[k].phase.Over?
      && (answer.Saved? ==> answer.key !in w.artifacts)
    case Crash(k) => k < |w.execs|
  }

  function Move(w: World, k: nat, phase: Phase): World
    requires k < |w.execs|
  {
    w.(execs := w.execs[k := w.execs[k].(phase := phase)])
  }

  function SetStatus(w: World, status: string): World {
    w.(book := w.book.(row := w.book.row.(status := status)))
  }

  function Advance(w: World, k: nat, answer: Answer): World
    requires k < |w.execs|
  {
    match w.execs[k].phase
    case LookingUp =>
      Move(w, k, if !answer.Works? then Failing else if w.book.row.status == "completed" then Over else Preparing)
    case Preparing =>
      Move(w, k, if answer.Works? then Marking else Failing)
    case Marking =>
      if answer.Works? then Move(SetStatus(w, "running"), k, Computing)
      else Move(if answer == Errs(true) then SetStatus(w, "running") else w, k, Failing)
    case Computing =>
      if answer.Returns? then Move(w, k, Checking(answer.result)).(returned := w.returned + [answer.result])
      else Move(w, k, Failing)
    case Checking(result) =>
      if Missing(SymbolsOf(result.candidates), w.universe) == [] && answer.Saved? then
        Move(w, k, Committing(result, answer.key)).(artifacts := w.artifacts[answer.key := result.equityCurveCsv])
      else Move(w, k, Failing)
    case Committing(result, key) =>
      var done := Committed(w.book, result, key);
      if done.None? then Move(w, k, Failing)
      else if answer.Works? then Move(w.(book := done.value), k, Over)
      else Move(if answer == Errs(true) then w.(book := done.value) else w, k, Failing)
    case Failing =>
      var written := JobQueue.Exhausted(w.execs[k].job) && (answer.Works? || answer == Errs(true));
      Move(if written then SetStatus(w, "failed") else w, k, Over)
    case Over => w
  }

  function Apply(w: World, e: Event): World
    requires Enabled(w, e)
  {
    match e
    case Begin(job) => w.(execs := w.execs + [Exec(job, LookingUp)])
    case Proceed(k, answer) => Advance(w, k, answer)
    case Crash(k) => Move(w, k, Over)
  }

  predicate Playable(w: World, events: seq<Event>)
    decreases |events|
  {
    |events| == 0 || (Enabled(w, events[0]) && Playable(Apply(w, events[0]), events[1..]))
  }

  function Play(w: World, events: seq<Event>): World
    requires Playable(w, events)
    decreases |events|
  {
    if |events| == 0 then w else Play(Apply(w, events[0]), events[1..])
  }

  /** The three statements that reach the book do so whenever they take effect, whatever the caller is told. */
  lemma WhatReachesTheBook(w: World, k: nat, answer: Answer)
    requires k < |w.execs|
    ensures var (exec, before, after) := (w.execs[k], w.book, Advance(w, k, answer).book);
            var effective := answer.Works? || answer == Errs(true);
            if effective && exec.phase.Marking? then after == before.(row := before.row.(status := "running"))
            else if effective && exec.phase.Failing? && exec.job.attempts >= exec.job.maxAttempts then
              after == before.(row := before.row.(status := "failed"))
            else if effective && exec.phase.Committing? then
              var done := Committed(before, exec.phase.result, exec.phase.key);
              after == if done.Some? then done.value else before
            else after == before
  {
    hide Committed, Missing, SymbolsOf;
  }

  // Unconditional: the run and its ranking agree

  /** Every part of the book comes from the one result `r`, and the stored artifact is that result's curve. */
  ghost predicate ComesFrom(w: World, r: BacktestResult) {
    var row := w.book.row;
    && row.checksum == Some(r.checksum)
    && row.engineVersion == Some(r.engineVersion)
    && row.summary == (if r.summary == "" then "{}" else r.summary)
    && row.artifactKey.Some? && row.artifactKey.value in w.artifacts
    && w.artifacts[row.artifactKey.value] == r.equityCurveCsv
    && Acceptable(r.candidates)
    && Sorting.Distinct(SymbolsOf(r.candidates))
    && Missing(SymbolsOf(r.candidates), w.universe) == []
    && w.book.candidates == RowsOf(row.strategyId, r.candidates)
  }

  ghost predicate NothingCommitted(book: Book) {
    && book.row.checksum.None? && book.row.engineVersion.None? && book.row.artifactKey.None?
    && book.row.status != "completed" && book.candidates == []
  }

  ghost predicate PhaseAgrees(w: World, phase: Phase) {
    && (phase.Checking? ==> phase.result in w.returned)
    && (phase.Committing? ==>
          && phase.result in w.returned
          && phase.key in w.artifacts && w.artifacts[phase.key] == phase.result.equityCurveCsv
          && Missing(SymbolsOf(phase.result.candidates), w.universe) == [])
  }

  ghost predicate Agrees(w: World) {
    && (NothingCommitted(w.book) || exists r :: r in w.returned && ComesFrom(w, r))
    && (forall k :: 0 <= k < |w.execs| ==> PhaseAgrees(w, w.execs[k].phase))
    && KnownStatus(w.book.row.status)
    && (w.book.row.status == "failed" ==> exists k :: 0 <= k < |w.execs| && JobQueue.Exhausted(w.execs[k].job))
  }

  /** A step that writes no result keeps where the book comes from. */
  lemma SameBookAgrees(w: World, next: World)
    requires NothingCommitted(w.book) || exists r :: r in w.returned && ComesFrom(w, r)
    requires next.universe == w.universe && next.book.candidates == w.book.candidates
    requires next.book.row == w.book.row.(status := next.book.row.status)
    requires next.book.row.status == "completed" ==> w.book.row.status == "completed"
    requires forall key :: key in w.artifacts ==> key in next.artifacts && next.artifacts[key] == w.artifacts[key]
    requires w.returned <= next.returned
    ensures NothingCommitted(next.book) || exists r :: r in next.returned && ComesFrom(next, r)
  {
    if !NothingCommitted(w.book) {
      var r :| r in w.returned && ComesFrom(w, r);
      assert r in next.returned && ComesFrom(next, r);
    }
  }

  lemma CommitAgrees(w: World, k: nat, answer: Answer)
    requires Agrees(w) && k < |w.execs| && w.execs[k].phase.Committing?
    ensures var next := Advance(w, k, answer);
            NothingCommitted(next.book) || exists r :: r in next.returned && ComesFrom(next, r)
  {
    hide Missing;
    var next := Advance(w, k, answer);
    var phase := w.execs[k].phase;
    assert PhaseAgrees(w, phase);
    if next.book == w.book {
      SameBookAgrees(w, next);
    } else {
      assert phase.result in next.returned && ComesFrom(next, phase.result);
    }
  }

  /** What a step keeps whatever it does: the universe, everyone's job, the others' phases, and what was saved. */
  lemma AdvanceOnlyAdds(w: World, k: nat, answer: Answer)
    requires Enabled(w, Proceed(k, answer))
    ensures var next := Advance(w, k, answer);
            && next.universe == w.universe && w.returned <= next.returned
            && |next.execs| == |w.execs|
            && (forall j :: 0 <= j < |w.execs| ==> next.execs[j].job == w.execs[j].job)
            && (forall j :: 0 <= j < |w.execs| && j != k ==> next.execs[j] == w.execs[j])
            && (forall key :: key in w.artifacts ==> key in next.artifacts && next.artifacts[key] == w.artifacts[key])
  {
    hide Committed, Missing, JobQueue.Exhausted;
  }

  lemma AdvanceKeepsPhase(w: World, k: nat, answer: Answer)
    requires Enabled(w, Proceed(k, answer)) && PhaseAgrees(w, w.execs[k].phase)
    ensures var next := Advance(w, k, answer); k < |next.execs| && PhaseAgrees(next, next.execs[k].phase)
  {
    hide Committed, Missing, JobQueue.Exhausted;
  }

  lemma AdvanceKeepsPhases(w: World, k: nat, answer: Answer)
    requires Agrees(w) && Enabled(w, Proceed(k, answer))
    ensures var next := Advance(w, k, answer);
            forall j :: 0 <= j < |next.execs| ==> PhaseAgrees(next, next.execs[j].phase)
  {
    hide Missing, Advance, NothingCommitted, ComesFrom, KnownStatus;
    var next := Advance(w, k, answer);
    AdvanceOnlyAdds(w, k, answer);
    assert PhaseAgrees(w, w.execs[k].phase);
    AdvanceKeepsPhase(w, k, answer);
    forall j | 0 <= j < |next.execs| ensures PhaseAgrees(next, next.execs[j].phase) {
      if j != k {
        assert PhaseAgrees(w, w.execs[j].phase);
      }
    }
  }

  /** A step changes the run only by a status, and to `completed` or a new ranking only by committing. */
  lemma AdvanceSetsStatus(w: World, k: nat, answer: Answer)
    requires Enabled(w, Proceed(k, answer))
    ensures var next := Advance(w, k, answer);
            && (!w.execs[k].phase.Committing? ==>
                  && next.book.candidates == w.book.candidates
                  && next.book.row == w.book.row.(status := next.book.row.status)
                  && (next.book.row.status == "completed" ==> w.book.row.status == "completed"))
            && (next.book.row.status != w.book.row.status ==>
                  next.book.row.status in {"running", "failed", "completed"})
            && (next.book.row.status == "failed" && w.book.row.status != "failed" ==>
                  JobQueue.Exhausted(w.execs[k].job))
  {
    hide Missing, Acceptable, Sorting.Distinct, JobQueue.Exhausted;
  }

  lemma AdvanceKeepsAgreement(w: World, k: nat, answer: Answer)
    requires Agrees(w) && Enabled(w, Proceed(k, answer))
    ensures Agrees(Advance(w, k, answer))
  {
    hide PhaseAgrees, NothingCommitted, ComesFrom, Missing, Advance, JobQueue.Exhausted;
    var next := Advance(w, k, answer);
    AdvanceOnlyAdds(w, k, answer);
    AdvanceSetsStatus(w, k, answer);
    AdvanceKeepsPhases(w, k, answer);
    if w.execs[k].phase.Committing? {
      CommitAgrees(w, k, answer);
    } else {
      SameBookAgrees(w, next);
    }
    if next.book.row.status == "failed" {
      var j := k;
      if w.book.row.status == "failed" {
        j :| 0 <= j < |w.execs| && JobQueue.Exhausted(w.execs[j].job);
      }
      assert JobQueue.Exhausted(next.execs[j].job);
    }
  }

  lemma StepKeepsAgreement(w: World, e: Event)
    requires Agrees(w) && Enabled(w, e)
    ensures Agrees(Apply(w, e))
  {
    hide NothingCommitted, ComesFrom, Missing;
    var next := Apply(w, e);
    match e
    case Proceed(k, answer) => AdvanceKeepsAgreement(w, k, answer);
    case Begin(_) =>
      SameBookAgrees(w, next);
      if next.book.row.status == "failed" {
        var k :| 0 <= k < |w.execs| && JobQueue.Exhausted(w.execs[k].job);
        assert JobQueue.Exhausted(next.execs[k].job);
      }
    case Crash(_) =>
      SameBookAgrees(w, next);
      if next.book.row.status == "failed" {
        var k :| 0 <= k < |w.execs| && JobQueue.Exhausted(w.execs[k].job);
        assert JobQueue.Exhausted(next.execs[k].job);
      }
  }

  lemma {:induction false} RunKeepsAgreement(w: World, events: seq<Event>)
    requires Agrees(w) && Playable(w, events)
    ensures Agrees(Play(w, events))
    decreases |events|
  {
    if |events| > 0 {
      StepKeepsAgreement(w, events[0]);
      RunKeepsAgreement(Apply(w, events[0]), events[1..]);
    }
  }

  /** Whatever the interleaving: no ranking without the run that proves it, and both from one and the same result. */
  lemma RunAndRankingAgree(strategyId: string, universe: seq<string>, events: seq<Event>)
    requires Playable(Start(strategyId, universe), events)
    ensures Agrees(Play(Start(strategyId, universe), events))
  {
    RunKeepsAgreement(Start(strategyId, universe), events);
  }

  /** What a reader of the stored ranking may rely on. */
  lemma StoredRankingIsAnswerable(strategyId: string, universe: seq<string>, events: seq<Event>)
    requires Playable(Start(strategyId, universe), events)
    ensures var w := Play(Start(strategyId, universe), events);
            && (w.book.row.status == "completed" || w.book.candidates != [] ==>
                  w.book.row.checksum.Some? && w.book.row.engineVersion.Some? && w.book.row.artifactKey.Some?)
            && (forall i :: 0 <= i < |w.book.candidates| ==>
                  && w.book.candidates[i].rank == i + 1
                  && w.book.candidates[i].weight > 0.0
                  && w.book.candidates[i].symbol in w.universe)
            && (forall i, j :: 0 <= i < j < |w.book.candidates| ==>
                  w.book.candidates[i].symbol != w.book.candidates[j].symbol)
  {
    RunAndRankingAgree(strategyId, universe, events);
    var w := Play(Start(strategyId, universe), events);
    hide Play, Playable, ComesFrom;
    if !NothingCommitted(w.book) {
      var r :| r in w.returned && ComesFrom(w, r);
      AnswerableFrom(w, r);
    }
  }

  lemma AnswerableFrom(w: World, r: BacktestResult)
    requires ComesFrom(w, r)
    ensures w.book.row.checksum.Some? && w.book.row.engineVersion.Some? && w.book.row.artifactKey.Some?
    ensures forall i :: 0 <= i < |w.book.candidates| ==>
              && w.book.candidates[i].rank == i + 1
              && w.book.candidates[i].weight > 0.0
              && w.book.candidates[i].symbol in w.universe
    ensures forall i, j :: 0 <= i < j < |w.book.candidates| ==>
              w.book.candidates[i].symbol != w.book.candidates[j].symbol
  {
    MissingIsExact(SymbolsOf(r.candidates), w.universe);
    hide Missing, ClaimsOf;
    forall i | 0 <= i < |w.book.candidates|
      ensures w.book.candidates[i].symbol == SymbolsOf(r.candidates)[i] && w.book.candidates[i].symbol in w.universe
      ensures w.book.candidates[i].rank == i + 1 && w.book.candidates[i].weight > 0.0
    {
      assert PositionFault(r.candidates, i).None?;
      assert SymbolsOf(r.candidates)[i] in SymbolsOf(r.candidates);
    }
  }

  // Conditional: completed is final

  datatype Assumption = NoOverlap | NoHiddenEffect | LookupSucceeds

  /** Executions do not overlap; a store call that errs had no effect; the initial status lookup succeeds. */
  predicate Meets(w: World, e: Event, a: Assumption) {
    match a
    case NoOverlap => e.Begin? ==> forall k :: 0 <= k < |w.execs| ==> w.execs[k].phase.Over?
    case NoHiddenEffect => e.Proceed? ==> e.answer != Errs(true)
    case LookupSucceeds => e.Proceed? && e.k < |w.execs| && w.execs[e.k].phase.LookingUp? ==> e.answer.Works?
  }

  predicate RunMeets(w: World, events: seq<Event>, a: Assumption)
    requires Playable(w, events)
    decreases |events|
  {
    |events| > 0 ==> Meets(w, events[0], a) && RunMeets(Apply(w, events[0]), events[1..], a)
  }

  predicate OrderlyRun(w: World, events: seq<Event>)
    requires Playable(w, events)
  {
    RunMeets(w, events, NoOverlap) && RunMeets(w, events, NoHiddenEffect) && RunMeets(w, events, LookupSucceeds)
  }

  /** Only the last execution may be under way, and past its lookup only while the run is not completed. */
  ghost predicate OneAtATime(w: World) {
    && (forall k :: 0 <= k < |w.execs| - 1 ==> w.execs[k].phase.Over?)
    && (|w.execs| > 0 && w.book.row.status == "completed" ==> w.execs[|w.execs| - 1].phase in {LookingUp, Over})
  }

  lemma OrderlyStep(w: World, e: Event)
    requires OneAtATime(w) && Enabled(w, e)
    requires Meets(w, e, NoOverlap) && Meets(w, e, NoHiddenEffect) && Meets(w, e, LookupSucceeds)
    ensures OneAtATime(Apply(w, e))
    ensures w.book.row.status == "completed" ==> Apply(w, e).book == w.book
  {
    hide Missing, Acceptable, Sorting.Distinct;
    if e.Proceed? {
      assert e.k == |w.execs| - 1;
    }
  }

  lemma {:induction false} OrderlyRunKeepsOneAtATime(w: World, events: seq<Event>)
    requires OneAtATime(w) && Playable(w, events) && OrderlyRun(w, events)
    ensures OneAtATime(Play(w, events))
    ensures w.book.row.status == "completed" ==> Play(w, events).book == w.book
    decreases |events|
  {
    if |events| > 0 {
      OrderlyStep(w, events[0]);
      OrderlyRunKeepsOneAtATime(Apply(w, events[0]), events[1..]);
    }
  }

  /** Under the three assumptions no step leaves `completed`, and nothing of the finished run or its ranking changes. */
  lemma CompletedIsFinal(strategyId: string, universe: seq<string>, before: seq<Event>, after: seq<Event>)
    requires Playable(Start(strategyId, universe), before) && OrderlyRun(Start(strategyId, universe), before)
    requires Play(Start(strategyId, universe), before).book.row.status == "completed"
    requires Playable(Play(Start(strategyId, universe), before), after)
    requires OrderlyRun(Play(Start(strategyId, universe), before), after)
    ensures Play(Play(Start(strategyId, universe), before), after).book
            == Play(Start(strategyId, universe), before).book
  {
    OrderlyRunKeepsOneAtATime(Start(strategyId, universe), before);
    OrderlyRunKeepsOneAtATime(Play(Start(strategyId, universe), before), after);
  }

  // Each assumption is needed

  /** Playing one event more at the end. */
  lemma {:induction false} Extend(w: World, events: seq<Event>, e: Event, waived: Assumption) returns (more: seq<Event>)
    requires Playable(w, events) && Enabled(Play(w, events), e)
    requires forall a :: a != waived ==> RunMeets(w, events, a) && Meets(Play(w, events), e, a)
    ensures Playable(w, more) && Play(w, more) == Apply(Play(w, events), e)
    ensures forall a :: a != waived ==> RunMeets(w, more, a)
    ensures more == events + [e]
    decreases |events|
  {
    more := events + [e];
    if |events| == 0 {
      assert more == [e] && more[1..] == [];
      assert Playable(Apply(w, e), more[1..]);
      forall a | a != waived ensures RunMeets(w, more, a) {
        assert RunMeets(Apply(w, e), more[1..], a);
      }
    } else {
      forall a | a != waived
        ensures RunMeets(Apply(w, events[0]), events[1..], a)
        ensures Meets(Play(Apply(w, events[0]), events[1..]), e, a)
      {
        assert RunMeets(w, events, a);
      }
      var rest := Extend(Apply(w, events[0]), events[1..], e, waived);
      assert more[1..] == rest;
      forall a | a != waived ensures RunMeets(w, more, a) {
        assert RunMeets(w, events, a);
      }
    }
  }

  lemma Idle(w: World)
    ensures Playable(w, []) && Play(w, []) == w && forall a :: RunMeets(w, [], a)
  {
  }

  const JOB := JobQueue.Job(0, 1, 1)
  const RESULT := BacktestResult("", "curve", "checksum", "engine", CandidateSet(None, []))

  /** One execution up to its commit. */
  lemma ReachCommit(waived: Assumption) returns (events: seq<Event>)
    ensures Playable(Start("s", []), events)
    ensures Play(Start("s", []), events) ==
            World([], Book(NewRun("s").(status := "running"), []), map["key" := "curve"],
                  [Exec(JOB, Committing(RESULT, "key"))], [RESULT])
    ensures forall a :: a != waived ==> RunMeets(Start("s", []), events, a)
  {
    hide Playable, Play, RunMeets;
    var w := Start("s", []);
    Idle(w);
    events := [];
    events := Extend(w, events, Begin(JOB), waived);
    events := Extend(w, events, Proceed(0, Works), waived);
    events := Extend(w, events, Proceed(0, Works), waived);
    events := Extend(w, events, Proceed(0, Works), waived);
    events := Extend(w, events, Proceed(0, Returns(RESULT)), waived);
    events := Extend(w, events, Proceed(0, Saved("key")), waived);
  }

  /** A run that reached `completed` in `before` and left it in `after`, meeting every assumption but the waived one. */
  ghost predicate LeavesWaiving(before: seq<Event>, after: seq<Event>, waived: Assumption) {
    var w := Start("s", []);
    && Playable(w, before)
    && Play(w, before).book.row.status == "completed"
    && Playable(Play(w, before), after)
    && Play(Play(w, before), after).book.row.status != "completed"
    && forall a :: a != waived ==> RunMeets(w, before, a) && RunMeets(Play(w, before), after, a)
  }

  /** With any one of the three assumptions dropped and the others kept, some run leaves `completed`. */
  lemma EachAssumptionIsNeeded(waived: Assumption) returns (before: seq<Event>, after: seq<Event>)
    ensures LeavesWaiving(before, after, waived)
  {
    hide LeavesWaiving;
    match waived {
      case NoHiddenEffect => before, after := HiddenEffectLeaves();
      case LookupSucceeds => before, after := FailedLookupLeaves();
      case NoOverlap => before, after := OverlapLeaves();
    }
  }

  /** The commit took effect but reported an error, so the run is marked failed. */
  lemma HiddenEffectLeaves() returns (before: seq<Event>, after: seq<Event>)
    ensures LeavesWaiving(before, after, NoHiddenEffect)
  {
    hide Playable, Play, RunMeets;
    before := ReachCommit(NoHiddenEffect);
    before := Extend(Start("s", []), before, Proceed(0, Errs(true)), NoHiddenEffect);
    var done := Play(Start("s", []), before);
    Idle(done);
    after := Extend(done, [], Proceed(0, Works), NoHiddenEffect);
  }

  /** A second execution cannot look the finished run up on its last attempt, so it marks it failed. */
  lemma FailedLookupLeaves() returns (before: seq<Event>, after: seq<Event>)
    ensures LeavesWaiving(before, after, LookupSucceeds)
  {
    hide Playable, Play, RunMeets;
    before := ReachCommit(LookupSucceeds);
    before := Extend(Start("s", []), before, Proceed(0, Works), LookupSucceeds);
    var done := Play(Start("s", []), before);
    Idle(done);
    after := Extend(done, [], Begin(JOB), LookupSucceeds);
    after := Extend(done, after, Proceed(1, Errs(false)), LookupSucceeds);
    after := Extend(done, after, Proceed(1, Works), LookupSucceeds);
  }

  /** A second execution looked the run up before the first finished it, and then marks it running. */
  lemma OverlapLeaves() returns (before: seq<Event>, after: seq<Event>)
    ensures LeavesWaiving(before, after, NoOverlap)
  {
    hide Playable, Play, RunMeets;
    var w := Start("s", []);
    before := ReachCommit(NoOverlap);
    before := Extend(w, before, Begin(JOB), NoOverlap);
    before := Extend(w, before, Proceed(1, Works), NoOverlap);
    before := Extend(w, before, Proceed(1, Works), NoOverlap);
    before := Extend(w, before, Proceed(0, Works), NoOverlap);
    var done := Play(w, before);
    Idle(done);
    after := Extend(done, [], Proceed(1, Works), NoOverlap);
  }

  // Exactly when a completed run is safe

  /** Execution `k` will write a status unless it is stopped, or may: it is past its lookup and about to mark the run
      running, or it is on its last attempt and any error makes it mark the run failed. */
  predicate Threatens(exec: Exec) {
    exec.phase in {Preparing, Marking} || (!exec.phase.Over? && JobQueue.Exhausted(exec.job))
  }

  predicate NoNewExecution(events: seq<Event>) {
    forall e :: e in events ==> !e.Begin?
  }

  ghost predicate CanLeave(w: World) {
    exists events :: Playable(w, events) && NoNewExecution(events) && Play(w, events).book.row.status != "completed"
  }

  ghost predicate Threatened(w: World) {
    exists k :: 0 <= k < |w.execs| && Threatens(w.execs[k])
  }

  lemma HarmlessStep(w: World, e: Event)
    requires w.book.row.status == "completed" && !Threatened(w) && Enabled(w, e) && !e.Begin?
    ensures Apply(w, e).book == w.book && !Threatened(Apply(w, e))
  {
    hide Missing, Acceptable, Sorting.Distinct, JobQueue.Exhausted;
    var next := Apply(w, e);
    forall j | 0 <= j < |next.execs| ensures !Threatens(next.execs[j]) {
      assert !Threatens(w.execs[j]);
    }
    if e.Proceed? {
      assert !Threatens(w.execs[e.k]);
    }
  }

  lemma {:induction false} HarmlessRun(w: World, events: seq<Event>)
    requires w.book.row.status == "completed" && !Threatened(w) && Playable(w, events) && NoNewExecution(events)
    ensures Play(w, events).book == w.book
    decreases |events|
  {
    hide Threatened, Apply, Enabled;
    if |events| > 0 {
      assert events[0] in events;
      HarmlessStep(w, events[0]);
      HarmlessRun(Apply(w, events[0]), events[1..]);
    }
  }

  lemma PlayTwo(w: World, a: Event, b: Event)
    requires Enabled(w, a) && Enabled(Apply(w, a), b)
    ensures Playable(w, [a, b]) && Play(w, [a, b]) == Apply(Apply(w, a), b)
    ensures Playable(w, [a]) && Play(w, [a]) == Apply(w, a)
  {
    hide Apply, Enabled;
    var next := Apply(w, a);
    assert [a][1..] == [] && [b][1..] == [] && [a, b][1..] == [b];
    assert Playable(next, []) && Play(next, []) == next;
    assert Playable(Apply(next, b), []) && Play(Apply(next, b), []) == Apply(next, b);
    assert Playable(next, [b]) && Play(next, [b]) == Apply(next, b);
  }

  /** A threatening execution needs at most two steps. */
  lemma ThreatLeaves(w: World, k: nat)
    requires w.book.row.status == "completed" && k < |w.execs| && Threatens(w.execs[k])
    ensures CanLeave(w)
  {
    hide Missing, Acceptable, Sorting.Distinct, JobQueue.Exhausted, Playable, Play;
    var works, errs := Proceed(k, Works), Proceed(k, Errs(false));
    var first := if w.execs[k].phase.Preparing? then works else errs;
    if w.execs[k].phase.Marking? || w.execs[k].phase.Failing? {
      PlayTwo(w, works, Crash(k));
      assert NoNewExecution([works]);
      assert Play(w, [works]).book.row.status != "completed";
    } else {
      PlayTwo(w, first, works);
      assert NoNewExecution([first, works]);
      assert Play(w, [first, works]).book.row.status != "completed";
    }
  }

  /** A completed run can fall back without a further execution exactly when one under way threatens it; otherwise
      nothing of it or its ranking changes. */
  lemma CompletedIsSafeUnlessThreatened(w: World)
    requires w.book.row.status == "completed"
    ensures CanLeave(w) <==> Threatened(w)
    ensures !Threatened(w) ==>
              forall events :: Playable(w, events) && NoNewExecution(events) ==> Play(w, events).book == w.book
  {
    hide Play, Playable, NoNewExecution, Threatens;
    if Threatened(w) {
      var k :| 0 <= k < |w.execs| && Threatens(w.execs[k]);
      ThreatLeaves(w, k);
    } else {
      forall events | Playable(w, events) && NoNewExecution(events) ensures Play(w, events).book == w.book {
        HarmlessRun(w, events);
      }
    }
  }
}
