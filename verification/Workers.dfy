/**
 * The queue and one run of a backtest together: workers lease the run's job among others, process it statement by
 * statement, and report. A disciplined worker takes no step on a job whose lease has run out.
 */
module Workers {
  import opened JobQueue
  import Exclusion
  import LeaseProtocol
  import RunCompletion
  import RunStore

  /** Execution k of the queue is execution k of the run; executions of other jobs are over from the start. */
  datatype Service = Service(queue: LeaseProtocol.World, run: RunCompletion.World)

  datatype Move = OfQueue(event: LeaseProtocol.Event) | OfWorker(k: nat, answer: RunCompletion.Answer)

  function Start(now: int, strategyId: string, universe: seq<string>): Service {
    Service(LeaseProtocol.Start(now), RunCompletion.Start(strategyId, universe))
  }

  /**
   * Discipline: a worker steps and reports only while its lease lasts, and reports once it has processed the job. A
   * store call that errs had no effect, and the initial lookup succeeds.
   */
  predicate Allowed(s: Service, m: Move) {
    match m
    case OfQueue(e) =>
      && LeaseProtocol.Enabled(s.queue, e)
      && (e.Report? ==> LeaseProtocol.Live(s.queue, e.k) && e.k < |s.run.execs| && s.run.execs[e.k].phase.Over?)
    case OfWorker(k, answer) =>
      && RunCompletion.Enabled(s.run, RunCompletion.Proceed(k, answer))
      && LeaseProtocol.Live(s.queue, k)
      && answer != RunCompletion.Errs(true)
      && (s.run.execs[k].phase.LookingUp? ==> answer.Works?)
  }

  /** The run's executions after a queue event: a lease begins one, a report or a crash ends one. */
  function Followed(id: JobId, s: Service, e: LeaseProtocol.Event): RunCompletion.World
    requires LeaseProtocol.Enabled(s.queue, e)
  {
    match e
    case Lease(leased, _, _) =>
      var job := LeaseProtocol.Apply(s.queue, e).execs[|s.queue.execs|].job;
      var phase := if leased == id then RunCompletion.LookingUp else RunCompletion.Over;
      s.run.(execs := s.run.execs + [RunCompletion.Exec(job, phase)])
    case Report(k, _) => if k < |s.run.execs| then RunCompletion.Move(s.run, k, RunCompletion.Over) else s.run
    case Crash(k) => if k < |s.run.execs| then RunCompletion.Move(s.run, k, RunCompletion.Over) else s.run
    case Tick(_) => s.run
    case Enqueue(_, _) => s.run
  }

  /** `id` is the job of the run. */
  function Made(id: JobId, s: Service, m: Move): Service
    requires Allowed(s, m)
  {
    match m
    case OfQueue(e) => Service(LeaseProtocol.Apply(s.queue, e), Followed(id, s, e))
    case OfWorker(k, answer) => Service(s.queue, RunCompletion.Advance(s.run, k, answer))
  }

  predicate Legal(id: JobId, s: Service, moves: seq<Move>)
    decreases |moves|
  {
    |moves| == 0 || (Allowed(s, moves[0]) && Legal(id, Made(id, s, moves[0]), moves[1..]))
  }

  function After(id: JobId, s: Service, moves: seq<Move>): Service
    requires Legal(id, s, moves)
    decreases |moves|
  {
    if |moves| == 0 then s else After(id, Made(id, s, moves[0]), moves[1..])
  }

  // What every move keeps

  ghost predicate Aligned(id: JobId, s: Service) {
    && |s.queue.execs| == |s.run.execs|
    && forall k :: 0 <= k < |s.run.execs| && s.queue.execs[k].job.id != id ==> s.run.execs[k].phase.Over?
  }

  /** Only a worker that has yet to look the run up can be live on a completed one. */
  ghost predicate CompletedIsLeftAlone(id: JobId, s: Service) {
    s.run.book.row.status == "completed" ==>
      forall k :: 0 <= k < |s.run.execs| && LeaseProtocol.Live(s.queue, k) && s.queue.execs[k].job.id == id ==>
        s.run.execs[k].phase in {RunCompletion.LookingUp, RunCompletion.Over}
  }

  ghost predicate Orderly(id: JobId, s: Service) {
    && LeaseProtocol.Consistent(s.queue) && Exclusion.Exclusive(s.queue) && Exclusion.Guarded(s.queue)
    && Aligned(id, s)
    && CompletedIsLeftAlone(id, s)
  }

  lemma QueueMoveIsOrderly(id: JobId, s: Service, e: LeaseProtocol.Event)
    requires Orderly(id, s) && Allowed(s, OfQueue(e))
    ensures Orderly(id, Made(id, s, OfQueue(e))) && Made(id, s, OfQueue(e)).run.book == s.run.book
  {
    LeaseProtocol.StepKeepsConsistent(s.queue, e);
    Exclusion.TimelyReportIsSafe(s.queue, e);
    Exclusion.StepKeepsExclusive(s.queue, e);
    hide LeaseProtocol.Consistent, Exclusion.Exclusive, Exclusion.Guarded, RetryDelay;
    QueueMoveKeepsPhases(id, s, e);
  }

  lemma QueueMoveKeepsPhases(id: JobId, s: Service, e: LeaseProtocol.Event)
    requires Aligned(id, s) && CompletedIsLeftAlone(id, s) && Allowed(s, OfQueue(e))
    ensures var next := Made(id, s, OfQueue(e)); Aligned(id, next) && CompletedIsLeftAlone(id, next)
    ensures Made(id, s, OfQueue(e)).run.book == s.run.book
  {
    hide RetryDelay, FailRow, CompleteRow, LeaseProtocol.Reported;
    var next := Made(id, s, OfQueue(e));
    forall k | 0 <= k < |s.queue.execs|
      ensures next.queue.execs[k].job == s.queue.execs[k].job
      ensures LeaseProtocol.Live(next.queue, k) ==> LeaseProtocol.Live(s.queue, k)
      ensures next.run.execs[k].phase.Over? || next.run.execs[k] == s.run.execs[k]
    {
    }
  }

  /** Only a commit completes a run, and it ends its execution. */
  lemma CompletingEnds(w: RunCompletion.World, k: nat, answer: RunCompletion.Answer)
    requires k < |w.execs| && answer != RunCompletion.Errs(true) && w.book.row.status != "completed"
    requires RunCompletion.Advance(w, k, answer).book.row.status == "completed"
    ensures RunCompletion.Advance(w, k, answer).execs[k].phase.Over?
  {
    hide RunStore.Missing, RunStore.Committable, Exhausted;
  }

  lemma WorkerMoveIsOrderly(id: JobId, s: Service, k: nat, answer: RunCompletion.Answer)
    requires Orderly(id, s) && Allowed(s, OfWorker(k, answer))
    ensures Orderly(id, Made(id, s, OfWorker(k, answer)))
    ensures s.run.book.row.status == "completed" ==> Made(id, s, OfWorker(k, answer)).run.book == s.run.book
  {
    hide LeaseProtocol.Consistent, Exclusion.Guarded, RunStore.Missing, RunStore.Committed;
    RunCompletion.AdvanceOnlyAdds(s.run, k, answer);
    var next := Made(id, s, OfWorker(k, answer));
    if s.run.book.row.status != "completed" {
      hide RunCompletion.Advance;
      if next.run.book.row.status == "completed" {
        CompletingEnds(s.run, k, answer);
      }
    }
  }

  lemma {:induction false} OrderlyThroughout(id: JobId, s: Service, moves: seq<Move>)
    requires Orderly(id, s) && Legal(id, s, moves)
    ensures Orderly(id, After(id, s, moves))
    ensures s.run.book.row.status == "completed" ==> After(id, s, moves).run.book == s.run.book
    decreases |moves|
  {
    hide Orderly, Allowed, Made;
    if |moves| > 0 {
      match moves[0]
      case OfQueue(e) =>
        QueueMoveIsOrderly(id, s, e);
        OrderlyThroughout(id, Made(id, s, moves[0]), moves[1..]);
      case OfWorker(k, answer) =>
        WorkerMoveIsOrderly(id, s, k, answer);
        OrderlyThroughout(id, Made(id, s, moves[0]), moves[1..]);
    }
  }

  /**
   * Lease discipline alone keeps executions of one job apart: when workers take no step after their lease runs out,
   * nothing of a completed run or its ranking ever changes again, whatever else the queue does.
   */
  lemma DisciplineMakesCompletedFinal(
      now: int, strategyId: string, universe: seq<string>, id: JobId, before: seq<Move>, after: seq<Move>)
    requires Legal(id, Start(now, strategyId, universe), before)
    requires After(id, Start(now, strategyId, universe), before).run.book.row.status == "completed"
    requires Legal(id, After(id, Start(now, strategyId, universe), before), after)
    ensures var done := After(id, Start(now, strategyId, universe), before);
            After(id, done, after).run.book == done.run.book
  {
    hide Allowed, Made;
    OrderlyThroughout(id, Start(now, strategyId, universe), before);
    OrderlyThroughout(id, After(id, Start(now, strategyId, universe), before), after);
  }
}
