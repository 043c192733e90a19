/** When two live workers can hold one job: exactly after which reports, and under what discipline never. */
module Exclusion {
  import opened JobQueue
  import opened LeaseProtocol
  import opened Options

  /** No two live executions of one job. */
  ghost predicate Exclusive(w: World) {
    forall j, k :: 0 <= j < k < |w.execs| && Live(w, j) && Live(w, k) ==> w.execs[j].job.id != w.execs[k].job.id
  }

  /** Execution `j` is live on the job `k` works on, under a lease that outlasts the retry delay of k's copy. */
  predicate Outlasts(w: World, j: nat, k: nat)
    requires j < |w.execs| && k < |w.execs|
  {
    && j != k && Live(w, j)
    && w.execs[j].job.id == w.execs[k].job.id
    && w.now + RetryDelay(w.execs[k].job.attempts) < w.execs[j].until
  }

  /** A failure from a copy with attempts left, on a leased row, beside a live worker whose lease outlasts the delay. */
  predicate Dangerous(w: World, e: Event) {
    && e.Report? && !e.succeeded && e.k < |w.execs|
    && !Exhausted(w.execs[e.k].job)
    && w.execs[e.k].job.id in w.rows && w.rows[w.execs[e.k].job.id].state.Leased?
    && exists j: nat | j < |w.execs| :: Outlasts(w, j, e.k)
  }

  predicate Careful(w: World, events: seq<Event>)
    requires Playable(w, events)
    decreases |events|
  {
    |events| > 0 ==> !Dangerous(w, events[0]) && Careful(Apply(w, events[0]), events[1..])
  }

  // Careful runs keep it

  predicate Holds(row: Row, exec: Exec) {
    row.state.Leased? && row.leasedUntil == Some(exec.until) && row.attempts == exec.job.attempts
  }

  /** A live execution holds its job, or its job is over, or it is due again only after the execution's lease. */
  ghost predicate Guarded(w: World) {
    forall k :: 0 <= k < |w.execs| && Live(w, k) ==>
      && w.execs[k].job.id in w.rows
      && var row := w.rows[w.execs[k].job.id];
         Terminal(row) || Holds(row, w.execs[k]) || (row.state.Retryable? && w.execs[k].until <= row.availableAt)
  }

  lemma LeasableHasNoLive(w: World, id: JobId, k: nat)
    requires Guarded(w) && id in w.rows && Leasable(w.rows[id], w.now) && Live(w, k)
    ensures w.execs[k].job.id != id
  {
  }

  lemma LeaseKeepsExclusive(w: World, e: Event)
    requires Exclusive(w) && Guarded(w) && e.Lease? && Enabled(w, e)
    ensures Exclusive(Apply(w, e)) && Guarded(Apply(w, e))
  {
    var next := Apply(w, e);
    forall k | 0 <= k < |w.execs| && Live(next, k) ensures Live(w, k) && w.execs[k].job.id != e.id {
      LeasableHasNoLive(w, e.id, k);
    }
  }

  lemma ReportKeepsExclusive(w: World, e: Event)
    requires Consistent(w) && Exclusive(w) && Guarded(w) && e.Report? && Enabled(w, e) && !Dangerous(w, e)
    ensures Exclusive(Apply(w, e)) && Guarded(Apply(w, e))
  {
    var next, job := Apply(w, e), w.execs[e.k].job;
    assert CopyAgrees(w, e.k);
    hide Consistent, CopyAgrees, RetryDelay;
    forall k | 0 <= k < |w.execs| && Live(next, k)
      ensures Live(w, k) && k != e.k
      ensures next.execs[k].job.id in next.rows
      ensures var row := next.rows[next.execs[k].job.id];
              Terminal(row) || Holds(row, next.execs[k])
                || (row.state.Retryable? && next.execs[k].until <= row.availableAt)
    {
      assert Live(w, k);
      if w.execs[k].job.id == job.id {
        assert !Outlasts(w, k, e.k) || Exhausted(job) || e.succeeded || !w.rows[job.id].state.Leased?;
      }
    }
  }

  lemma StepKeepsExclusive(w: World, e: Event)
    requires Consistent(w) && Exclusive(w) && Guarded(w) && Enabled(w, e) && !Dangerous(w, e)
    ensures Exclusive(Apply(w, e)) && Guarded(Apply(w, e))
  {
    hide Consistent, Dangerous;
    match e
    case Lease(_, _, _) => LeaseKeepsExclusive(w, e);
    case Report(_, _) => ReportKeepsExclusive(w, e);
    case Tick(_) =>
      forall k | 0 <= k < |w.execs| && Live(Apply(w, e), k) ensures Live(w, k) {
      }
    case Enqueue(_, _) =>
      forall k | 0 <= k < |w.execs| && Live(Apply(w, e), k) ensures Live(w, k) {
      }
    case Crash(_) =>
      forall k | 0 <= k < |w.execs| && Live(Apply(w, e), k) ensures Live(w, k) && k != e.k {
      }
  }

  lemma {:induction false} CarefulKeepsExclusive(w: World, events: seq<Event>)
    requires Consistent(w) && Exclusive(w) && Guarded(w) && Playable(w, events) && Careful(w, events)
    ensures Consistent(Play(w, events)) && Exclusive(Play(w, events)) && Guarded(Play(w, events))
    decreases |events|
  {
    hide Consistent, Exclusive, Guarded, Dangerous, Apply, Enabled;
    if |events| > 0 {
      StepKeepsConsistent(w, events[0]);
      StepKeepsExclusive(w, events[0]);
      CarefulKeepsExclusive(Apply(w, events[0]), events[1..]);
    }
  }

  // A dangerous report breaks it

  /** Nothing but the clock and further leases. */
  predicate Quiet(events: seq<Event>) {
    forall e :: e in events ==> e.Tick? || e.Lease?
  }

  /** After a dangerous report, waiting out the delay and one lease put a second live worker on the job. */
  lemma DangerLetsAnotherIn(w: World, e: Event, worker: string)
    requires Enabled(w, e) && Dangerous(w, e)
    ensures var job := w.execs[e.k].job;
            var more := [Tick(RetryDelay(job.attempts)), Lease(job.id, worker, 1)];
            && Quiet(more) && Playable(Apply(w, e), more)
            && !Exclusive(Play(Apply(w, e), more))
  {
    var job := w.execs[e.k].job;
    var j: nat :| j < |w.execs| && Outlasts(w, j, e.k);
    var w1 := Apply(w, e);
    var tick, lease := Tick(RetryDelay(job.attempts)), Lease(job.id, worker, 1);
    var w2 := Apply(w1, tick);
    assert Enabled(w2, lease);
    var w3 := Apply(w2, lease);
    hide RetryDelay, Playable, Play;
    PlayOne(w1, tick);
    PlayOneMore(w1, [tick], lease);
    assert [tick] + [lease] == [tick, lease];
    assert Live(w3, j) && Live(w3, |w.execs|);
  }

  // Both together

  /** At every point of the run, whatever time passes and whoever leases next, no job has two live workers. */
  ghost predicate AlwaysExclusive(w: World, events: seq<Event>)
    requires Playable(w, events)
  {
    forall i, more :: 0 <= i <= |events| && Quiet(more) && Playable(w, events[..i] + more) ==>
      Exclusive(Play(w, events[..i] + more))
  }

  lemma {:induction false} QuietIsCareful(w: World, events: seq<Event>)
    requires Playable(w, events) && Quiet(events)
    ensures Careful(w, events)
    decreases |events|
  {
    if |events| > 0 {
      assert events[0] in events;
      QuietIsCareful(Apply(w, events[0]), events[1..]);
    }
  }

  lemma {:induction false} CarefulConcat(w: World, first: seq<Event>, more: seq<Event>)
    requires Playable(w, first + more) && Playable(w, first) && Careful(w, first)
    requires Playable(Play(w, first), more) && Careful(Play(w, first), more)
    ensures Careful(w, first + more)
    decreases |first|
  {
    hide Dangerous;
    if |first| == 0 {
      assert first + more == more;
    } else {
      assert (first + more)[1..] == first[1..] + more;
      CarefulConcat(Apply(w, first[0]), first[1..], more);
    }
  }

  lemma {:induction false} CarefulPrefix(w: World, events: seq<Event>, i: nat)
    requires Playable(w, events) && Careful(w, events) && i <= |events|
    ensures Playable(w, events[..i]) && Careful(w, events[..i])
    decreases i
  {
    hide Dangerous;
    if i > 0 {
      assert events[..i][1..] == events[1..][..i - 1];
      CarefulPrefix(Apply(w, events[0]), events[1..], i - 1);
    }
  }

  lemma CarefulIsAlwaysExclusive(w: World, events: seq<Event>)
    requires Consistent(w) && Exclusive(w) && Guarded(w) && Playable(w, events) && Careful(w, events)
    ensures AlwaysExclusive(w, events)
  {
    hide Consistent, Exclusive, Guarded, Careful, Quiet, Playable, Play;
    forall i, more | 0 <= i <= |events| && Quiet(more) && Playable(w, events[..i] + more)
      ensures Exclusive(Play(w, events[..i] + more))
    {
      CarefulPrefix(w, events, i);
      PlayConcat(w, events[..i], more);
      QuietIsCareful(Play(w, events[..i]), more);
      CarefulConcat(w, events[..i], more);
      CarefulKeepsExclusive(w, events[..i] + more);
    }
  }

  lemma AlwaysExclusiveGoesOn(w: World, events: seq<Event>)
    requires Playable(w, events) && |events| > 0 && AlwaysExclusive(w, events)
    ensures AlwaysExclusive(Apply(w, events[0]), events[1..])
  {
    hide Exclusive, Quiet, Apply, Enabled;
    var next, rest := Apply(w, events[0]), events[1..];
    forall i, more | 0 <= i <= |rest| && Quiet(more) && Playable(next, rest[..i] + more)
      ensures Exclusive(Play(next, rest[..i] + more))
    {
      var whole := events[..i + 1] + more;
      assert whole[0] == events[0] && whole[1..] == rest[..i] + more;
      assert Playable(w, whole) && Play(w, whole) == Play(next, rest[..i] + more);
    }
  }

  lemma {:induction false} AlwaysExclusiveIsCareful(w: World, events: seq<Event>)
    requires Playable(w, events) && AlwaysExclusive(w, events)
    ensures Careful(w, events)
    decreases |events|
  {
    hide Exclusive, Quiet, AlwaysExclusive, Apply, Enabled, Dangerous;
    if |events| > 0 {
      if Dangerous(w, events[0]) {
        DangerShows(w, events);
      }
      AlwaysExclusiveGoesOn(w, events);
      AlwaysExclusiveIsCareful(Apply(w, events[0]), events[1..]);
    }
  }

  lemma DangerShows(w: World, events: seq<Event>)
    requires Playable(w, events) && |events| > 0 && Dangerous(w, events[0])
    ensures !AlwaysExclusive(w, events)
  {
    DangerLetsAnotherIn(w, events[0], "");
    hide Exclusive, Quiet, Dangerous, Apply, Enabled;
    var job := w.execs[events[0].k].job;
    var more := [Tick(RetryDelay(job.attempts)), Lease(job.id, "", 1)];
    var whole := events[..1] + more;
    assert whole[0] == events[0] && whole[1..] == more;
    assert Playable(w, whole) && Play(w, whole) == Play(Apply(w, events[0]), more);
  }

  /**
   * Exactly when exclusion holds: at no point of a run can passing time and further leases put two live workers on
   * one job, if and only if the run has no dangerous report.
   */
  lemma ExclusionIsExactlyCare(now: int, events: seq<Event>)
    requires Playable(Start(now), events)
    ensures Careful(Start(now), events) <==> AlwaysExclusive(Start(now), events)
  {
    if Careful(Start(now), events) {
      CarefulIsAlwaysExclusive(Start(now), events);
    }
    if AlwaysExclusive(Start(now), events) {
      AlwaysExclusiveIsCareful(Start(now), events);
    }
  }

  // Discipline is enough

  lemma {:induction false} DisciplinedIsCareful(w: World, events: seq<Event>)
    requires Consistent(w) && Exclusive(w) && Guarded(w) && Playable(w, events) && Disciplined(w, events)
    ensures Careful(w, events)
    decreases |events|
  {
    hide Consistent, Guarded, Apply, Enabled;
    if |events| > 0 {
      TimelyReportIsSafe(w, events[0]);
      StepKeepsConsistent(w, events[0]);
      StepKeepsExclusive(w, events[0]);
      DisciplinedIsCareful(Apply(w, events[0]), events[1..]);
    }
  }

  lemma TimelyReportIsSafe(w: World, e: Event)
    requires Exclusive(w) && Enabled(w, e) && (e.Report? ==> w.now < w.execs[e.k].until)
    ensures !Dangerous(w, e)
  {
  }

  /** Under discipline no two live workers ever hold the same job, now or after any quiet stretch. */
  lemma MutualExclusion(now: int, events: seq<Event>)
    requires Playable(Start(now), events) && Disciplined(Start(now), events)
    ensures AlwaysExclusive(Start(now), events) && Exclusive(Play(Start(now), events))
  {
    DisciplinedIsCareful(Start(now), events);
    hide Playable, Play, Careful, Disciplined;
    CarefulIsAlwaysExclusive(Start(now), events);
    CarefulKeepsExclusive(Start(now), events);
  }

  // Whose lease a report ends

  /**
   * At any point of any run, a report on a leased job ends the lease of its one holder, and the reporter is that holder
   * if and only if the attempt number of its copy is still the row's.
   */
  lemma ReportEndsTheHoldersLease(now: int, events: seq<Event>, k: nat, succeeded: bool) returns (holder: nat)
    requires Playable(Start(now), events) && IsRunning(Play(Start(now), events), k)
    requires var w := Play(Start(now), events);
             w.execs[k].job.id in w.rows && w.rows[w.execs[k].job.id].state.Leased?
    ensures var w := Play(Start(now), events);
            var id := w.execs[k].job.id;
            && IsOpen(w, holder, id)
            && (forall j :: IsOpen(w, j, id) ==> j == holder)
            && (holder == k <==> w.execs[k].job.attempts == w.rows[id].attempts)
            && id in Apply(w, Report(k, succeeded)).rows
            && !Apply(w, Report(k, succeeded)).rows[id].state.Leased?
  {
    RunKeepsConsistent(Start(now), events);
    RunKeepsLeasesOpen(Start(now), events);
    var w := Play(Start(now), events);
    var id := w.execs[k].job.id;
    hide Play, Playable, RetryDelay, RowAgrees;
    holder :| IsOpen(w, holder, id);
    forall j | IsOpen(w, j, id) ensures j == holder {
      SameAttemptSameExecution(w, j, holder);
    }
    if w.execs[k].job.attempts == w.rows[id].attempts {
      SameAttemptSameExecution(w, k, holder);
    }
  }

  lemma SameAttemptSameExecution(w: World, j: nat, k: nat)
    requires Ascending(w.execs) && j < |w.execs| && k < |w.execs|
    requires w.execs[j].job.id == w.execs[k].job.id && w.execs[j].job.attempts == w.execs[k].job.attempts
    ensures j == k
  {
  }

  // What stale reports do

  const BEFORE := [Enqueue(0, 2), Lease(0, "a", 1), Tick(1), Lease(0, "b", 10)]

  /** A worker's lease has run out and another has taken the job over; both still work. */
  lemma TakenOver()
    ensures Playable(Start(0), BEFORE)
    ensures Play(Start(0), BEFORE) == World(1, map[0 := Row(Leased, 2, 2, 0, 0, Some(11), Some("b"))],
              [Exec("a", Job(0, 1, 2), 1, false, Running), Exec("b", Job(0, 2, 2), 11, true, Running)])
  {
    var none: seq<Event> := [];
    assert Playable(Start(0), none) && Play(Start(0), none) == Start(0);
    hide Playable, Play;
    PlayOneMore(Start(0), none, Enqueue(0, 2));
    PlayOneMore(Start(0), none + [Enqueue(0, 2)], Lease(0, "a", 1));
    PlayOneMore(Start(0), none + [Enqueue(0, 2)] + [Lease(0, "a", 1)], Tick(1));
    PlayOneMore(Start(0), none + [Enqueue(0, 2)] + [Lease(0, "a", 1)] + [Tick(1)], Lease(0, "b", 10));
    assert none + [Enqueue(0, 2)] + [Lease(0, "a", 1)] + [Tick(1)] + [Lease(0, "b", 10)] == BEFORE;
  }

  /** The first worker's late failure requeues the job, and a third worker joins the second: both are live. */
  lemma LateFailureLetsTwoWorkersIn()
    ensures var events := BEFORE + [Report(0, false)] + [Tick(1)] + [Lease(0, "c", 10)];
            && Playable(Start(0), events)
            && var w := Play(Start(0), events);
               Live(w, 1) && Live(w, 2) && w.execs[1].job.id == w.execs[2].job.id == 0
  {
    TakenOver();
    hide Playable, Play;
    PlayOneMore(Start(0), BEFORE, Report(0, false));
    PlayOneMore(Start(0), BEFORE + [Report(0, false)], Tick(1));
    PlayOneMore(Start(0), BEFORE + [Report(0, false)] + [Tick(1)], Lease(0, "c", 10));
  }

  /** Late reports are also misjudged: a success completes the job under its new holder, whose own report will be
      refused, and a failure puts a job whose attempts are used up back in the queue. */
  lemma LateReportsAreMisjudged()
    ensures Playable(Start(0), BEFORE + [Report(0, true)]) && Playable(Start(0), BEFORE + [Report(0, false)])
    ensures var w := Play(Start(0), BEFORE + [Report(0, true)]);
            && 0 in w.rows && w.rows[0].state.Completed? && Live(w, 1)
            && Apply(w, Report(1, true)).execs[1].status.Refused?
    ensures var w := Play(Start(0), BEFORE + [Report(0, false)]);
            && 0 in w.rows && w.rows[0].state.Retryable? && w.rows[0].attempts == w.rows[0].maxAttempts
  {
    TakenOver();
    hide Playable, Play;
    PlayOneMore(Start(0), BEFORE, Report(0, true));
    PlayOneMore(Start(0), BEFORE, Report(0, false));
  }
}
