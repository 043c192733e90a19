/** The jobs table and the three statements that move a job through it. */
module JobQueue {
  import opened Options

  type JobId = nat

  datatype JobState = Queued | Leased | Retryable | Completed | Failed

  /** One row of the jobs table; times are whole seconds on one clock. */
  datatype Row = Row(
    state: JobState, attempts: nat, maxAttempts: nat, availableAt: int, createdAt: int,
    leasedUntil: Option<int>, leasedBy: Option<string>)

  type Table = map<JobId, Row>

  /** A worker's in-memory copy of the job it leased, as of the lease. */
  datatype Job = Job(id: JobId, attempts: nat, maxAttempts: nat)

  predicate Terminal(row: Row) {
    row.state.Completed? || row.state.Failed?
  }

  // The statements, row by row

  function NewRow(maxAttempts: nat, now: int): Row {
    Row(Queued, 0, maxAttempts, now, now, None, None)
  }

  /** Waiting and due, or leased to someone whose lease has run out. */
  predicate Leasable(row: Row, now: int) {
    || ((row.state.Queued? || row.state.Retryable?) && row.availableAt <= now)
    || (row.state.Leased? && row.leasedUntil.Some? && row.leasedUntil.value <= now)
  }

  function LeaseRow(row: Row, worker: string, until: int): Row {
    row.(state := Leased, attempts := row.attempts + 1, leasedUntil := Some(until), leasedBy := Some(worker))
  }

  /** Only the state is tested: not who holds the lease. */
  function CompleteRow(row: Row): Row {
    if row.state.Leased? then row.(state := Completed, leasedUntil := None, leasedBy := None) else row
  }

  function Pow2(n: nat): nat {
    if n == 0 then 1 else 2 * Pow2(n - 1)
  }

  function RetryDelay(attempts: int): nat {
    if attempts < 1 then 1 else Pow2(if attempts - 1 > 6 then 6 else attempts - 1)
  }

  /** Whether the job has used up its attempts is judged on the worker's own copy. */
  predicate Exhausted(job: Job) {
    job.attempts >= job.maxAttempts
  }

  function FailRow(row: Row, job: Job, now: int): Row {
    if !row.state.Leased? then row
    else if Exhausted(job) then row.(state := Failed, availableAt := now, leasedUntil := None, leasedBy := None)
    else row.(state := Retryable, availableAt := now + RetryDelay(job.attempts), leasedUntil := None, leasedBy := None)
  }

  /** The backoff doubles from one second and stops at sixty-four. */
  lemma {:induction false} BackoffDoubles(attempts: nat)
    requires attempts >= 1
    ensures RetryDelay(attempts + 1) == if attempts <= 6 then 2 * RetryDelay(attempts) else 64
    ensures 1 <= RetryDelay(attempts) <= 64
    ensures RetryDelay(0) == RetryDelay(1) == 1
  {
    assert Pow2(2) == 4 && Pow2(4) == 16 && Pow2(6) == 64;
    assert Pow2(3) == 8 && Pow2(5) == 32;
  }

  /** The queue's order: first due, then first created. */
  predicate Before(a: Row, b: Row) {
    a.availableAt < b.availableAt || (a.availableAt == b.availableAt && a.createdAt < b.createdAt)
  }

  /** Not open to a lease: decided, waiting for a later time, or leased until one. */
  ghost predicate Withheld(row: Row, now: int) {
    match row.state
    case Completed => true
    case Failed => true
    case Leased => row.leasedUntil.Some? ==> now < row.leasedUntil.value
    case Queued => now < row.availableAt
    case Retryable => now < row.availableAt
  }

  /**
   * A row this lease may take: open to it, not locked by a concurrent lease, and no other such row available sooner or,
   * available at the same time, created sooner.
   */
  ghost predicate NextInLine(rows: Table, locked: set<JobId>, now: int, id: JobId) {
    && id in rows && id !in locked && !Withheld(rows[id], now)
    && forall other :: other in rows && other !in locked && !Withheld(rows[other], now) ==>
      && rows[id].availableAt <= rows[other].availableAt
      && (rows[id].availableAt == rows[other].availableAt ==> rows[id].createdAt <= rows[other].createdAt)
  }

  /** Rows with the same time of creation and the same budget. */
  ghost predicate SameJob(a: Row, b: Row) {
    a.createdAt == b.createdAt && a.maxAttempts == b.maxAttempts
  }

  datatype Outcome = NotLeased | Recorded(terminal: bool)

  datatype Pass = Idle | Done(id: JobId) | Gave(id: JobId, terminal: bool)

  /** The store's view of the jobs table. */
  class JobStore {
    var rows: Table
    var now: int

    constructor (now: int)
      ensures rows == map[] && this.now == now
    {
      rows := map[];
      this.now := now;
    }

    /** Leases the next job in line. `locked` are the rows concurrent leases hold, which are skipped. */
    method LeaseNextJob(worker: string, leaseDuration: nat, locked: set<JobId>) returns (job: Option<Job>)
      modifies this`rows
      ensures job.None? ==> rows == old(rows) && forall id :: id in rows && id !in locked ==> Withheld(rows[id], now)
      ensures job.Some? ==>
                && NextInLine(old(rows), locked, now, job.value.id)
                && rows == old(rows)[job.value.id := LeaseRow(old(rows)[job.value.id], worker, now + leaseDuration)]
                && job.value.attempts == rows[job.value.id].attempts
                && job.value.maxAttempts == rows[job.value.id].maxAttempts
      ensures job.Some? ==>
                var before, after := old(rows)[job.value.id], rows[job.value.id];
                && after.state.Leased? && after.leasedUntil == Some(now + leaseDuration)
                && after.leasedBy == Some(worker) && after.attempts == before.attempts + 1
                && after.availableAt == before.availableAt && SameJob(before, after)
    {
      var next: Option<JobId> := None;
      var rest := rows.Keys;
      while rest != {}
        invariant rest <= rows.Keys && rows == old(rows)
        invariant next.None? ==> forall id :: id in rows && id !in rest && id !in locked ==> !Leasable(rows[id], now)
        invariant next.Some? ==>
                    && next.value in rows && next.value !in locked && Leasable(rows[next.value], now)
                    && forall id :: id in rows && id !in rest && id !in locked && Leasable(rows[id], now) ==>
                         !Before(rows[id], rows[next.value])
        decreases rest
      {
        var id :| id in rest;
        rest := rest - {id};
        if id !in locked && Leasable(rows[id], now) && (next.None? || Before(rows[id], rows[next.value])) {
          next := Some(id);
        }
      }
      if next.None? {
        return None;
      }
      var id := next.value;
      rows := rows[id := LeaseRow(rows[id], worker, now + leaseDuration)];
      job := Some(Job(id, rows[id].attempts, rows[id].maxAttempts));
    }

    method CompleteJob(id: JobId) returns (recorded: bool)
      modifies this`rows
      ensures recorded <==> id in old(rows) && old(rows)[id].state.Leased?
      ensures rows == if id in old(rows) then old(rows)[id := CompleteRow(old(rows)[id])] else old(rows)
      ensures recorded ==>
                var before, after := old(rows)[id], rows[id];
                && after.state.Completed? && after.leasedUntil.None? && after.leasedBy.None?
                && after.attempts == before.attempts && after.availableAt == before.availableAt
                && SameJob(before, after)
      ensures !recorded ==> rows == old(rows)
    {
      if id !in rows || !rows[id].state.Leased? {
        return false;
      }
      rows := rows[id := rows[id].(state := Completed, leasedUntil := None, leasedBy := None)];
      recorded := true;
    }

    method FailJob(job: Job) returns (outcome: Outcome)
      modifies this`rows
      ensures outcome.NotLeased? <==> job.id !in old(rows) || !old(rows)[job.id].state.Leased?
      ensures rows == if job.id in old(rows) then old(rows)[job.id := FailRow(old(rows)[job.id], job, now)]
              else old(rows)
      ensures outcome.NotLeased? ==> rows == old(rows)
      ensures outcome.Recorded? ==> outcome.terminal == (job.attempts >= job.maxAttempts)
      ensures outcome.Recorded? ==>
                var before, after := old(rows)[job.id], rows[job.id];
                && after.leasedUntil.None? && after.leasedBy.None?
                && after.attempts == before.attempts && SameJob(before, after)
                && (outcome.terminal ==> after.state.Failed? && after.availableAt == now)
                && (!outcome.terminal ==>
                     after.state.Retryable? && after.availableAt == now + RetryDelay(job.attempts))
    {
      var terminal := job.attempts >= job.maxAttempts;
      var state := Retryable;
      var availableAt := now + RetryDelay(job.attempts);
      if terminal {
        state := Failed;
        availableAt := now;
      }
      if job.id !in rows || !rows[job.id].state.Leased? {
        return NotLeased;
      }
      var row := rows[job.id];
      rows := rows[job.id := row.(state := state, availableAt := availableAt, leasedUntil := None, leasedBy := None)];
      outcome := Recorded(terminal);
    }

    /** One turn of the worker loop that no other worker cuts into: lease, process, report. Whether processing succeeds
        is given. */
    method RunOne(worker: string, leaseDuration: nat, succeeds: bool) returns (pass: Pass)
      modifies this`rows
      ensures pass.Idle? ==> rows == old(rows) && forall id :: id in rows ==> Withheld(rows[id], now)
      ensures !pass.Idle? ==> NextInLine(old(rows), {}, now, pass.id)
      ensures !pass.Idle? ==>
                var leased := LeaseRow(old(rows)[pass.id], worker, now + leaseDuration);
                rows == old(rows)[pass.id := if succeeds then CompleteRow(leased)
                                             else FailRow(leased, Job(pass.id, leased.attempts, leased.maxAttempts),
                                               now)]
      ensures (succeeds ==> !pass.Gave?) && (!succeeds ==> !pass.Done?)
      ensures pass.Gave? ==> (pass.terminal <==> old(rows)[pass.id].attempts + 1 >= old(rows)[pass.id].maxAttempts)
    {
      var job := LeaseNextJob(worker, leaseDuration, {});
      if job.None? {
        return Idle;
      }
      if succeeds {
        var _ := CompleteJob(job.value.id);
        return Done(job.value.id);
      }
      var outcome := FailJob(job.value);
      pass := Gave(job.value.id, outcome.terminal);
    }
  }
}
