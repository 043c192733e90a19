/**
 * The job queue as workers drive it: every statement is one step, workers hold the copy of the job they leased,
 * and any interleaving of leases, reports, crashes and the clock is a run.
 */
module LeaseProtocol {
  import opened Options
  import opened JobQueue
  import Sorting

  /** What became of one execution. `Refused` is a report that found the job not leased. */
  datatype Status = Running | Retried | Finished | Refused | Gone

  /** One lease and the work done under it; `tookOver` says that it ended another's expired lease. */
  datatype Exec = Exec(worker: string, job: Job, until: int, tookOver: bool, status: Status)

  /** The clock, the jobs table, and every execution so far in lease order. */
  datatype World = World(now: int, rows: Table, execs: seq<Exec>)

  datatype Event =
    | Tick(seconds: nat)
    | Enqueue(id: JobId, maxAttempts: nat)
    | Lease(id: JobId, worker: string, duration: nat)
    | Report(k: nat, succeeded: bool)
    | Crash(k: nat)

  function Start(now: int): World {
    World(now, map[], [])
  }

  predicate IsRunning(w: World, k: nat) {
    k < |w.execs| && w.execs[k].status.Running?
  }

  /** A lease may take any leasable row: concurrent leases skip the rows the others have locked. */
  predicate Enabled(w: World, e: Event) {
    match e
    case Tick(_) => true
    case Enqueue(id, maxAttempts) => id !in w.rows && maxAttempts > 0
    case Lease(id, _, duration) => id in w.rows && Leasable(w.rows[id], w.now) && duration > 0
    case Report(k, _) => IsRunning(w, k)
    case Crash(k) => IsRunning(w, k)
  }

  function Reported(row: Row, job: Job, succeeded: bool, now: int): Row {
    if succeeded then CompleteRow(row) else FailRow(row, job, now)
  }

  function Fate(before: Row, after: Row): Status {
    if !before.state.Leased? then Refused else if after.state.Retryable? then Retried else Finished
  }

  function Apply(w: World, e: Event): World
    requires Enabled(w, e)
  {
    match e
    case Tick(seconds) => w.(now := w.now + seconds)
    case Enqueue(id, maxAttempts) => w.(rows := w.rows[id := NewRow(maxAttempts, w.now)])
    case Lease(id, worker, duration) =>
      var row := LeaseRow(w.rows[id], worker, w.now + duration);
      var job := Job(id, row.attempts, row.maxAttempts);
      var exec := Exec(worker, job, w.now + duration, w.rows[id].state.Leased?, Running);
      World(w.now, w.rows[id := row], w.execs + [exec])
    case Report(k, succeeded) =>
      var exec := w.execs[k];
      if exec.job.id !in w.rows then w.(execs := w.execs[k := exec.(status := Refused)])
      else
        var before := w.rows[exec.job.id];
        var after := Reported(before, exec.job, succeeded, w.now);
        World(w.now, w.rows[exec.job.id := after], w.execs[k := exec.(status := Fate(before, after))])
    case Crash(k) => w.(execs := w.execs[k := w.execs[k].(status := Gone)])
  }

  predicate Playable(w: World, events: seq<Event>)
    decreases |events|
  {
    |events| == 0 || (Enabled(w, events[0]) && Playable(Apply(w, events[0]), events[1..]))
  }

  function Play(w: World, events: seq<Event>): World
    requires Playable(w, events)
    decreases |events|
  {
    if |events| == 0 then w else Play(Apply(w, events[0]), events[1..])
  }

  // What a job's executions add up to

  function Of(id: JobId): Exec -> bool {
    (e: Exec) => e.job.id == id
  }

  function TookOver(id: JobId): Exec -> bool {
    (e: Exec) => e.job.id == id && e.tookOver
  }

  function WasRetried(id: JobId): Exec -> bool {
    (e: Exec) => e.job.id == id && e.status.Retried?
  }

  function WasFinished(id: JobId): Exec -> bool {
    (e: Exec) => e.job.id == id && e.status.Finished?
  }

  function MayRetry(id: JobId): Exec -> bool {
    (e: Exec) => e.job.id == id && !Exhausted(e.job)
  }

  function Leases(w: World, id: JobId): nat {
    Sorting.Count(w.execs, Of(id))
  }

  /** The leases of a job that ran out and were taken over. */
  function Expiries(w: World, id: JobId): nat {
    Sorting.Count(w.execs, TookOver(id))
  }

  /** The reports on a job that the table accepted. */
  function Reports(w: World, id: JobId): nat {
    Sorting.Count(w.execs, WasRetried(id)) + Sorting.Count(w.execs, WasFinished(id))
  }

  // Unconditional invariants

  /** What the table promises of one row against the history of its leases. */
  ghost predicate RowAgrees(w: World, id: JobId)
    requires id in w.rows
  {
    var row := w.rows[id];
    && row.maxAttempts > 0
    && (row.state.Leased? <==> row.leasedBy.Some?)
    && (row.state.Leased? <==> row.leasedUntil.Some?)
    && (row.state.Queued? <==> row.attempts == 0)
    && (row.state.Failed? ==> row.attempts >= row.maxAttempts)
    && row.attempts == Leases(w, id)
    && row.attempts == Expiries(w, id) + Reports(w, id) + (if row.state.Leased? then 1 else 0)
    && Sorting.Count(w.execs, WasFinished(id)) == (if Terminal(row) then 1 else 0)
    && Sorting.Count(w.execs, MayRetry(id))
         == (if row.attempts < row.maxAttempts then row.attempts else row.maxAttempts - 1)
  }

  /** What a worker's copy promises of the row, however old the copy is. */
  ghost predicate CopyAgrees(w: World, k: nat)
    requires k < |w.execs|
  {
    var job := w.execs[k].job;
    && job.id in w.rows
    && job.maxAttempts == w.rows[job.id].maxAttempts
    && 1 <= job.attempts <= w.rows[job.id].attempts
    && (w.execs[k].status.Retried? ==> !Exhausted(job))
  }

  ghost predicate Ascending(execs: seq<Exec>) {
    forall j, k :: 0 <= j < k < |execs| && execs[j].job.id == execs[k].job.id ==>
      execs[j].job.attempts < execs[k].job.attempts
  }

  ghost predicate Consistent(w: World) {
    && (forall id :: id in w.rows ==> RowAgrees(w, id))
    && (forall k :: 0 <= k < |w.execs| ==> CopyAgrees(w, k))
    && Ascending(w.execs)
  }

  /** A job no execution mentions has empty counts. */
  lemma {:induction false} CountNone(execs: seq<Exec>, p: Exec -> bool)
    requires forall k :: 0 <= k < |execs| ==> !p(execs[k])
    ensures Sorting.Count(execs, p) == 0
  {
    if |execs| > 0 {
      CountNone(execs[1..], p);
    }
  }

  lemma CountAppend(execs: seq<Exec>, e: Exec, p: Exec -> bool)
    ensures Sorting.Count(execs + [e], p) == Sorting.Count(execs, p) + (if p(e) then 1 else 0)
  {
    Sorting.CountConcat(execs, [e], p);
    assert Sorting.Count([e], p) == (if p(e) then 1 else 0) + Sorting.Count([e][1..], p);
  }


  lemma LeaseKeepsRow(w: World, e: Event, id: JobId)
    requires Consistent(w) && e.Lease? && Enabled(w, e) && id in w.rows
    ensures var next := Apply(w, e); id in next.rows && RowAgrees(next, id)
  {
    assert RowAgrees(w, id);
    hide Consistent, Sorting.Count;
    var exec := Apply(w, e).execs[|w.execs|];
    CountAppend(w.execs, exec, Of(id));
    CountAppend(w.execs, exec, TookOver(id));
    CountAppend(w.execs, exec, WasRetried(id));
    CountAppend(w.execs, exec, WasFinished(id));
    CountAppend(w.execs, exec, MayRetry(id));
  }

  lemma LeaseKeepsConsistent(w: World, e: Event)
    requires Consistent(w) && e.Lease? && Enabled(w, e)
    ensures Consistent(Apply(w, e))
  {
    hide RowAgrees;
    var next := Apply(w, e);
    forall id | id in next.rows ensures RowAgrees(next, id) {
      LeaseKeepsRow(w, e, id);
    }
    LeaseKeepsCopies(w, e);
  }

  lemma LeaseKeepsCopies(w: World, e: Event)
    requires Consistent(w) && e.Lease? && Enabled(w, e)
    ensures var next := Apply(w, e);
            && Ascending(next.execs)
            && forall k :: 0 <= k < |next.execs| ==> CopyAgrees(next, k)
  {
    assert RowAgrees(w, e.id);
    hide RowAgrees;
    var next := Apply(w, e);
    forall k | 0 <= k < |next.execs| ensures CopyAgrees(next, k) {
      if k < |w.execs| {
        assert CopyAgrees(w, k);
      }
    }
    forall j, k | 0 <= j < k < |next.execs| && next.execs[j].job.id == next.execs[k].job.id
      ensures next.execs[j].job.attempts < next.execs[k].job.attempts
    {
      assert CopyAgrees(w, j);
    }
  }

  /** Replacing one execution's status touches only the counts that look at it. */
  lemma StatusCounts(w: World, k: nat, status: Status, id: JobId)
    requires k < |w.execs| && w.execs[k].status.Running?
    ensures var next := w.execs[k := w.execs[k].(status := status)];
            && Sorting.Count(next, Of(id)) == Leases(w, id)
            && Sorting.Count(next, TookOver(id)) == Expiries(w, id)
            && Sorting.Count(next, MayRetry(id)) == Sorting.Count(w.execs, MayRetry(id))
            && Sorting.Count(next, WasRetried(id)) == Sorting.Count(w.execs, WasRetried(id))
                 + (if w.execs[k].job.id == id && status.Retried? then 1 else 0)
            && Sorting.Count(next, WasFinished(id)) == Sorting.Count(w.execs, WasFinished(id))
                 + (if w.execs[k].job.id == id && status.Finished? then 1 else 0)
  {
    var exec := w.execs[k].(status := status);
    Sorting.CountUpdate(w.execs, k, exec, Of(id));
    Sorting.CountUpdate(w.execs, k, exec, TookOver(id));
    Sorting.CountUpdate(w.execs, k, exec, MayRetry(id));
    Sorting.CountUpdate(w.execs, k, exec, WasRetried(id));
    Sorting.CountUpdate(w.execs, k, exec, WasFinished(id));
  }

  lemma ReportKeepsRow(w: World, e: Event, id: JobId)
    requires Consistent(w) && e.Report? && Enabled(w, e) && id in w.rows
    ensures var next := Apply(w, e); id in next.rows && RowAgrees(next, id)
    ensures Apply(w, e).rows[id].maxAttempts == w.rows[id].maxAttempts
    ensures Apply(w, e).rows[id].attempts == w.rows[id].attempts
  {
    hide Ascending, RetryDelay, Sorting.Count;
    assert CopyAgrees(w, e.k);
    assert RowAgrees(w, id);
    hide Consistent;
    if w.execs[e.k].job.id == id {
      OwnRowAgrees(w, e);
    } else {
      StatusCounts(w, e.k, Apply(w, e).execs[e.k].status, id);
      hide Reported;
    }
  }

  lemma OwnRowAgrees(w: World, e: Event)
    requires e.Report? && Enabled(w, e) && w.execs[e.k].job.id in w.rows && RowAgrees(w, w.execs[e.k].job.id)
    requires CopyAgrees(w, e.k)
    ensures var id := w.execs[e.k].job.id; id in Apply(w, e).rows && RowAgrees(Apply(w, e), id)
    ensures var id := w.execs[e.k].job.id;
            && Apply(w, e).rows[id].attempts == w.rows[id].attempts
            && Apply(w, e).rows[id].maxAttempts == w.rows[id].maxAttempts
  {
    var id := w.execs[e.k].job.id;
    ReportedRow(w.rows[id], w.execs[e.k].job, e.succeeded, w.now);
    hide Sorting.Count, Reported, Fate;
    StatusCounts(w, e.k, Apply(w, e).execs[e.k].status, id);
  }

  /** What a report does to its row, case by case. */
  lemma ReportedRow(before: Row, job: Job, succeeded: bool, now: int)
    ensures var after := Reported(before, job, succeeded, now);
            && after.attempts == before.attempts && after.maxAttempts == before.maxAttempts
            && (!before.state.Leased? ==> after == before && Fate(before, after).Refused?)
            && (before.state.Leased? ==> after.leasedBy.None? && after.leasedUntil.None?)
            && (before.state.Leased? && !succeeded && !Exhausted(job) ==>
                  after.state.Retryable? && Fate(before, after).Retried?)
            && (before.state.Leased? && (succeeded || Exhausted(job)) ==>
                  Fate(before, after).Finished? && after.state == (if succeeded then Completed else Failed))
  {
  }

  lemma ReportKeepsConsistent(w: World, e: Event)
    requires Consistent(w) && e.Report? && Enabled(w, e)
    ensures Consistent(Apply(w, e))
  {
    hide RowAgrees, RetryDelay;
    var next := Apply(w, e);
    assert CopyAgrees(w, e.k);
    forall id | id in next.rows ensures RowAgrees(next, id) {
      ReportKeepsRow(w, e, id);
    }
    forall j | 0 <= j < |next.execs| ensures CopyAgrees(next, j) {
      assert CopyAgrees(w, j);
      ReportKeepsRow(w, e, w.execs[j].job.id);
    }
  }

  lemma CrashKeepsConsistent(w: World, e: Event)
    requires Consistent(w) && e.Crash? && Enabled(w, e)
    ensures Consistent(Apply(w, e))
  {
    var next := Apply(w, e);
    forall id | id in next.rows ensures RowAgrees(next, id) {
      assert RowAgrees(w, id);
      StatusCounts(w, e.k, Gone, id);
    }
    forall j | 0 <= j < |next.execs| ensures CopyAgrees(next, j) {
      assert CopyAgrees(w, j);
    }
  }

  lemma EnqueueKeepsConsistent(w: World, e: Event)
    requires Consistent(w) && e.Enqueue? && Enabled(w, e)
    ensures Consistent(Apply(w, e))
  {
    var next := Apply(w, e);
    forall j | 0 <= j < |next.execs| ensures CopyAgrees(next, j) {
      assert CopyAgrees(w, j);
    }
    forall id | id in next.rows ensures RowAgrees(next, id) {
      if id == e.id {
        forall k | 0 <= k < |w.execs| ensures w.execs[k].job.id != id {
          assert CopyAgrees(w, k);
        }
        CountNone(w.execs, Of(id));
        CountNone(w.execs, TookOver(id));
        CountNone(w.execs, WasRetried(id));
        CountNone(w.execs, WasFinished(id));
        CountNone(w.execs, MayRetry(id));
      } else {
        assert RowAgrees(w, id);
      }
    }
  }

  lemma StepKeepsConsistent(w: World, e: Event)
    requires Consistent(w) && Enabled(w, e)
    ensures Consistent(Apply(w, e))
  {
    match e
    case Tick(_) =>
      forall id | id in w.rows ensures RowAgrees(Apply(w, e), id) {
        assert RowAgrees(w, id);
      }
      forall k | 0 <= k < |w.execs| ensures CopyAgrees(Apply(w, e), k) {
        assert CopyAgrees(w, k);
      }
    case Enqueue(_, _) => EnqueueKeepsConsistent(w, e);
    case Lease(_, _, _) => LeaseKeepsConsistent(w, e);
    case Report(_, _) => ReportKeepsConsistent(w, e);
    case Crash(_) => CrashKeepsConsistent(w, e);
  }

  lemma {:induction false} RunKeepsConsistent(w: World, events: seq<Event>)
    requires Consistent(w) && Playable(w, events)
    ensures Consistent(Play(w, events))
    decreases |events|
  {
    if |events| > 0 {
      StepKeepsConsistent(w, events[0]);
      RunKeepsConsistent(Apply(w, events[0]), events[1..]);
    }
  }

  /** Every reachable state, whatever stale or crashed workers did: the table agrees with its history. */
  lemma EveryReachableTableIsConsistent(now: int, events: seq<Event>)
    requires Playable(Start(now), events)
    ensures Consistent(Play(Start(now), events))
  {
    RunKeepsConsistent(Start(now), events);
  }

  /** Completed and failed are absorbing: no run changes anything in such a row. */
  lemma {:induction false} TerminalIsAbsorbing(w: World, events: seq<Event>, id: JobId)
    requires Playable(w, events) && id in w.rows && Terminal(w.rows[id])
    ensures id in Play(w, events).rows && Play(w, events).rows[id] == w.rows[id]
    decreases |events|
  {
    if |events| > 0 {
      TerminalIsAbsorbing(Apply(w, events[0]), events[1..], id);
    }
  }

  /**
   * A job is leased at most `maxAttempts` times beyond its expired leases, and at most `maxAttempts` reports on it
   * are accepted, the last of which ends it. This needs no discipline: each execution retries the job at most once,
   * and only when its own attempt number is below the maximum.
   */
  lemma AttemptsAreBounded(w: World, id: JobId)
    requires Consistent(w) && id in w.rows
    ensures w.rows[id].attempts <= w.rows[id].maxAttempts + Expiries(w, id)
    ensures Reports(w, id) <= w.rows[id].maxAttempts
    ensures Reports(w, id) == w.rows[id].maxAttempts ==> Terminal(w.rows[id])
  {
    assert RowAgrees(w, id);
    forall k | 0 <= k < |w.execs| && WasRetried(id)(w.execs[k]) ensures MayRetry(id)(w.execs[k]) {
      assert CopyAgrees(w, k);
    }
    Sorting.CountMonotone(w.execs, w.execs, WasRetried(id), MayRetry(id));
  }

  /** The attempts a job may still use; never negative in a consistent table. */
  function Budget(w: World, id: JobId): int
    requires id in w.rows
  {
    w.rows[id].maxAttempts + Expiries(w, id) - w.rows[id].attempts
  }

  /** The budget is a termination measure: a lease of a waiting job uses one up, and nothing else moves it. */
  lemma OnlyFreshLeasesSpendBudget(w: World, e: Event, id: JobId)
    requires Consistent(w) && Enabled(w, e) && id in w.rows
    ensures 0 <= Budget(Apply(w, e), id)
    ensures Budget(Apply(w, e), id) ==
            Budget(w, id) - (if e.Lease? && e.id == id && !w.rows[id].state.Leased? then 1 else 0)
  {
    hide RowAgrees, CopyAgrees, Ascending, Sorting.Count, RetryDelay, Exhausted;
    StepKeepsConsistent(w, e);
    AttemptsAreBounded(Apply(w, e), id);
    hide Consistent;
    match e
    case Lease(_, _, _) => CountAppend(w.execs, Apply(w, e).execs[|w.execs|], TookOver(id));
    case Report(k, _) => StatusCounts(w, k, Apply(w, e).execs[k].status, id);
    case Crash(k) => StatusCounts(w, k, Gone, id);
    case Tick(_) =>
    case Enqueue(_, _) =>
  }

  /** Execution `k` is the current holder of the job's lease and has not reported: it works on, or it crashed. */
  predicate IsOpen(w: World, k: nat, id: JobId)
    requires id in w.rows
  {
    && k < |w.execs| && w.execs[k].job.id == id && w.execs[k].job.attempts == w.rows[id].attempts
    && (w.execs[k].status.Running? || w.execs[k].status.Gone?)
  }

  ghost predicate LeasesAreOpen(w: World) {
    forall id :: id in w.rows && w.rows[id].state.Leased? ==> exists k: nat :: IsOpen(w, k, id)
  }

  lemma StepKeepsLeasesOpen(w: World, e: Event)
    requires LeasesAreOpen(w) && Enabled(w, e)
    ensures LeasesAreOpen(Apply(w, e))
  {
    hide RetryDelay;
    var next := Apply(w, e);
    forall id | id in next.rows && next.rows[id].state.Leased? ensures exists k: nat :: IsOpen(next, k, id) {
      if e.Lease? && e.id == id {
        assert IsOpen(next, |w.execs|, id);
      } else {
        var k: nat :| IsOpen(w, k, id);
        assert IsOpen(next, k, id);
      }
    }
  }

  lemma {:induction false} RunKeepsLeasesOpen(w: World, events: seq<Event>)
    requires LeasesAreOpen(w) && Playable(w, events)
    ensures LeasesAreOpen(Play(w, events))
    decreases |events|
  {
    if |events| > 0 {
      StepKeepsLeasesOpen(w, events[0]);
      RunKeepsLeasesOpen(Apply(w, events[0]), events[1..]);
    }
  }

  /**
   * The measure drives a job to its end: when every worker that leased it has reported, it has been leased at most
   * `maxAttempts` times beyond its expired leases, and if that often then it is completed or failed.
   */
  lemma AnsweredJobsEnd(now: int, events: seq<Event>, id: JobId)
    requires Playable(Start(now), events) && id in Play(Start(now), events).rows
    requires forall e :: e in Play(Start(now), events).execs && e.job.id == id ==> !e.status.Running? && !e.status.Gone?
    ensures var w := Play(Start(now), events);
            && !w.rows[id].state.Leased?
            && Leases(w, id) <= w.rows[id].maxAttempts + Expiries(w, id)
            && (Leases(w, id) == w.rows[id].maxAttempts + Expiries(w, id) ==> Terminal(w.rows[id]))
  {
    RunKeepsConsistent(Start(now), events);
    RunKeepsLeasesOpen(Start(now), events);
    hide Playable, Play, Sorting.Count;
    var w := Play(Start(now), events);
    forall k: nat ensures !IsOpen(w, k, id) {
      assert k < |w.execs| ==> w.execs[k] in w.execs;
    }
    AttemptsAreBounded(w, id);
    assert RowAgrees(w, id);
  }

  /** A job that is neither completed nor failed can always still be completed, by one more lease. */
  lemma NeverStuck(w: World, id: JobId, worker: string) returns (wait: nat)
    requires Consistent(w) && id in w.rows && !Terminal(w.rows[id])
    ensures var events := [Tick(wait), Lease(id, worker, 1), Report(|w.execs|, true)];
            && Playable(w, events)
            && id in Play(w, events).rows && Play(w, events).rows[id].state.Completed?
  {
    assert RowAgrees(w, id);
    var row := w.rows[id];
    var due := if row.state.Leased? then row.leasedUntil.value else row.availableAt;
    wait := if due <= w.now then 0 else due - w.now;
    var w1 := Apply(w, Tick(wait));
    var w2 := Apply(w1, Lease(id, worker, 1));
    var report := Report(|w.execs|, true);
    assert Enabled(w2, report) && Apply(w2, report).rows[id].state.Completed?;
    hide Consistent, RowAgrees;
    PlayThree(w, Tick(wait), Lease(id, worker, 1), report);
  }

  lemma PlayThree(w: World, a: Event, b: Event, c: Event)
    requires Enabled(w, a) && Enabled(Apply(w, a), b) && Enabled(Apply(Apply(w, a), b), c)
    ensures Playable(w, [a, b, c]) && Play(w, [a, b, c]) == Apply(Apply(Apply(w, a), b), c)
  {
    hide Playable, Play, Apply, Enabled;
    PlayOne(w, a);
    PlayOneMore(w, [a], b);
    PlayOneMore(w, [a] + [b], c);
    assert [a] + [b] + [c] == [a, b, c];
  }

  // Backoff

  /** A job waiting for its retry is left alone until it is due. */
  lemma {:induction false} WaitingIsUntouched(w: World, events: seq<Event>, id: JobId)
    requires Playable(w, events) && id in w.rows && w.rows[id].state.Retryable?
    requires Play(w, events).now < w.rows[id].availableAt
    ensures w.now <= Play(w, events).now
    ensures id in Play(w, events).rows && Play(w, events).rows[id] == w.rows[id]
    decreases |events|
  {
    if |events| > 0 {
      ClockAdvances(Apply(w, events[0]), events[1..]);
      WaitingIsUntouched(Apply(w, events[0]), events[1..], id);
    }
  }

  lemma {:induction false} ClockAdvances(w: World, events: seq<Event>)
    requires Playable(w, events)
    ensures w.now <= Play(w, events).now
    decreases |events|
  {
    if |events| > 0 {
      ClockAdvances(Apply(w, events[0]), events[1..]);
    }
  }

  /**
   * When a failure is recorded for retry, no later lease of the job comes before the doubling delay of the
   * reported attempt has passed, whatever happens in between.
   */
  lemma RetryWaitsOutItsBackoff(w: World, k: nat, events: seq<Event>, again: Event)
    requires IsRunning(w, k)
    requires Apply(w, Report(k, false)).execs[k].status.Retried?
    requires Playable(Apply(w, Report(k, false)), events)
    requires again.Lease? && again.id == w.execs[k].job.id
    requires Enabled(Play(Apply(w, Report(k, false)), events), again)
    ensures Play(Apply(w, Report(k, false)), events).now >= w.now + RetryDelay(w.execs[k].job.attempts)
  {
    var failed := Apply(w, Report(k, false));
    if Play(failed, events).now < failed.rows[again.id].availableAt {
      WaitingIsUntouched(failed, events, again.id);
    }
  }

  // Lease discipline

  /** Every report comes before the reporter's own lease runs out. */
  predicate Disciplined(w: World, events: seq<Event>)
    requires Playable(w, events)
    decreases |events|
  {
    |events| > 0 ==>
      && (events[0].Report? ==> w.now < w.execs[events[0].k].until)
      && Disciplined(Apply(w, events[0]), events[1..])
  }

  predicate Live(w: World, k: nat) {
    IsRunning(w, k) && w.now < w.execs[k].until
  }

  /** A live execution is the current holder of its job, and a waiting job has attempts left. */
  ghost predicate HoldersAreCurrent(w: World) {
    && (forall k :: 0 <= k < |w.execs| && Live(w, k) ==>
          && w.execs[k].job.id in w.rows
          && w.rows[w.execs[k].job.id].state.Leased?
          && w.rows[w.execs[k].job.id].leasedBy == Some(w.execs[k].worker)
          && w.rows[w.execs[k].job.id].leasedUntil == Some(w.execs[k].until)
          && w.rows[w.execs[k].job.id].attempts == w.execs[k].job.attempts)
    && (forall id :: id in w.rows && (w.rows[id].state.Queued? || w.rows[id].state.Retryable?) ==>
          w.rows[id].attempts < w.rows[id].maxAttempts)
  }

  lemma NoTwoLive(w: World, j: nat, k: nat)
    requires Ascending(w.execs) && HoldersAreCurrent(w) && Live(w, j) && Live(w, k) && j != k
    ensures w.execs[j].job.id != w.execs[k].job.id
  {}

  lemma StepKeepsHolders(w: World, e: Event)
    requires Consistent(w) && HoldersAreCurrent(w) && Enabled(w, e)
    requires e.Report? ==> w.now < w.execs[e.k].until
    ensures HoldersAreCurrent(Apply(w, e))
  {
    hide RowAgrees, Ascending;
    var next := Apply(w, e);
    if e.Report? {
      assert Live(w, e.k);
      assert CopyAgrees(w, e.k);
    }
    forall k | 0 <= k < |next.execs| && Live(next, k)
      ensures var job := next.execs[k].job;
              && job.id in next.rows
              && next.rows[job.id].state.Leased?
              && next.rows[job.id].leasedBy == Some(next.execs[k].worker)
              && next.rows[job.id].leasedUntil == Some(next.execs[k].until)
              && next.rows[job.id].attempts == job.attempts
    {
      if k < |w.execs| {
        assert Live(w, k);
        if e.Report? && k != e.k {
          NoTwoLive(w, k, e.k);
        }
      }
    }
    if e.Enqueue? {
      assert next.rows[e.id].attempts < next.rows[e.id].maxAttempts;
    }
  }

  lemma {:induction false} RunKeepsHolders(w: World, events: seq<Event>)
    requires Consistent(w) && HoldersAreCurrent(w) && Playable(w, events) && Disciplined(w, events)
    ensures Consistent(Play(w, events)) && HoldersAreCurrent(Play(w, events))
    decreases |events|
  {
    if |events| > 0 {
      StepKeepsConsistent(w, events[0]);
      StepKeepsHolders(w, events[0]);
      RunKeepsHolders(Apply(w, events[0]), events[1..]);
    }
  }

  /** Under discipline every report is accepted, judged on the row's own attempts, and only it moves the job on. */
  lemma DisciplinedReportsCount(now: int, events: seq<Event>, k: nat, succeeded: bool)
    requires Playable(Start(now), events) && Disciplined(Start(now), events)
    requires Live(Play(Start(now), events), k)
    ensures var w := Play(Start(now), events);
            var id := w.execs[k].job.id;
            var next := Apply(w, Report(k, succeeded));
            && id in w.rows && id in next.rows
            && next.rows[id].state == (if succeeded then Completed
                                       else if w.rows[id].attempts >= w.rows[id].maxAttempts then Failed else Retryable)
            && Reports(next, id) == Reports(w, id) + 1
  {
    RunKeepsHolders(Start(now), events);
    var w := Play(Start(now), events);
    var next := Apply(w, Report(k, succeeded));
    assert CopyAgrees(w, k);
    StatusCounts(w, k, next.execs[k].status, w.execs[k].job.id);
  }

  /** Under discipline a job that still waits has been leased fewer than its maximum of times. */
  lemma WaitingHasAttemptsLeft(now: int, events: seq<Event>, id: JobId)
    requires Playable(Start(now), events) && Disciplined(Start(now), events)
    requires id in Play(Start(now), events).rows
    ensures var row := Play(Start(now), events).rows[id];
            row.state.Queued? || row.state.Retryable? ==> row.attempts < row.maxAttempts
  {
    RunKeepsHolders(Start(now), events);
  }

  // Runs end to end

  lemma {:induction false} PlayConcat(w: World, first: seq<Event>, rest: seq<Event>)
    requires Playable(w, first)
    ensures Playable(w, first + rest) <==> Playable(Play(w, first), rest)
    ensures Playable(w, first + rest) ==> Play(w, first + rest) == Play(Play(w, first), rest)
    decreases |first|
  {
    if |first| == 0 {
      assert first + rest == rest;
    } else {
      PlayConcat(Apply(w, first[0]), first[1..], rest);
      assert (first + rest)[1..] == first[1..] + rest;
    }
  }

  lemma PlayOne(w: World, e: Event)
    requires Enabled(w, e)
    ensures Playable(w, [e]) && Play(w, [e]) == Apply(w, e)
  {
    var rest := [e][1..];
    assert rest == [];
    assert Playable(Apply(w, e), rest) && Play(Apply(w, e), rest) == Apply(w, e);
  }

  lemma PlayOneMore(w: World, events: seq<Event>, e: Event)
    requires Playable(w, events) && Enabled(Play(w, events), e)
    ensures Playable(w, events + [e]) && Play(w, events + [e]) == Apply(Play(w, events), e)
  {
    PlayOne(Play(w, events), e);
    PlayConcat(w, events, [e]);
  }
}
