/**
 The job queue service over the tables it updates in place, and the trigger behind it. Each method
 runs to its end; overlapping claims are the subject of ConcurrentClaims.
 */
module JobStore {
  import opened Options
  import opened JobTable
  import opened Workers

  class Store {
    var jobs: seq<Job>
    var runs: seq<Run>

    function Contents(): Db
      reads this
    {
      Db(jobs, runs)
    }

    constructor ()
      ensures Contents() == EMPTY.db
    {
      jobs, runs := [], [];
    }

    /**
     sync_pipeline_run_status_from_jobs: a running job makes the run running and stamps its first start;
     else, if no job is pending, the run gets its outcome and the stamp of its first end.
     */
    method FireTrigger(r: nat, now: Time)
      modifies this`runs
      ensures Contents() == Sync(old(Contents()), r, now)
      ensures |runs| == old(|runs|) && forall q :: 0 <= q < |runs| && q != r ==> runs[q] == old(runs)[q]
      ensures r < |runs| ==>
        var was := old(runs)[r];
        var running := exists k :: 0 <= k < |jobs| && jobs[k].run == r && jobs[k].status == Running;
        var pending := exists k :: 0 <= k < |jobs| && jobs[k].run == r && jobs[k].status == Pending;
        var failed := exists k :: 0 <= k < |jobs| && jobs[k].run == r && jobs[k].status == Failed;
        runs[r] ==
          if running then Run(Running, if was.startedAt.Some? then was.startedAt else Some(now), was.completedAt)
          else if pending then was
          else Run(if failed then Failed else Success, was.startedAt,
                   if was.completedAt.Some? then was.completedAt else Some(now))
    {
      if r >= |runs| { return; }
      if HasStatus(jobs, r, Running) {
        if !runs[r].status.Running? || runs[r].startedAt.None? {
          runs := runs[r := runs[r].(status := Running, startedAt := Some(runs[r].startedAt.OrElse(now)))];
        }
        return;
      }
      var hasFailed := HasStatus(jobs, r, Failed);
      if AllTerminal(jobs, r) {
        runs := runs[r := runs[r].(status := if hasFailed then Failed else Success,
                                   completedAt := Some(runs[r].completedAt.OrElse(now)))];
      }
    }

    method CreatePipelineRun() returns (r: nat)
      modifies this`runs
      ensures r == old(|runs|) && Contents() == Db(old(jobs), old(runs) + [NEW_RUN])
      ensures runs[r] == Run(Pending, None, None)
    {
      r := |runs|;
      runs := runs + [NEW_RUN];
    }

    /** None when the run does not exist: the foreign key refuses the row. */
    method InsertNewJob(run: nat, stage: string, stepName: string, command: string, priority: int,
                        stageOrder: int, stepOrder: int, now: Time) returns (id: Option<nat>)
      modifies this
      ensures run >= old(|runs|) ==> id.None? && Contents() == old(Contents())
      ensures run < old(|runs|) ==> id == Some(old(|jobs|))
      ensures run < old(|runs|) ==>
        var row := NewJob(run, stage, stepName, command, priority, stageOrder, stepOrder, now);
        Contents() == Insert(old(Contents()), row, now)
      ensures run < old(|runs|) ==>
        jobs == old(jobs) + [Job(run, stage, stepName, command, priority, stageOrder, stepOrder, now, Pending, 0, 3,
                                 None, None, None, None, None, None)]
      ensures run < old(|runs|) ==> runs == Sync(Db(jobs, old(runs)), run, now).runs
    {
      if run >= |runs| { return None; }
      id := Some(|jobs|);
      jobs := jobs + [NewJob(run, stage, stepName, command, priority, stageOrder, stepOrder, now)];
      FireTrigger(run, now);
    }

    /** The row a claim returns when the rows in `locked` are skipped: the first in claim order, or none. */
    method SelectClaimable(locked: set<nat>) returns (best: Option<nat>)
      ensures best.None? ==> forall k: nat :: Claimable(jobs, k) ==> k in locked
      ensures best.Some? ==> Selected(jobs, locked, best.value)
      ensures best.Some? ==>
        var j := jobs[best.value];
        j.status == Pending && best.value !in locked &&
        (forall p :: 0 <= p < |jobs| && jobs[p].run == j.run && jobs[p].status in {Pending, Running} ==>
           jobs[p].stageOrder > j.stageOrder ||
           (jobs[p].stageOrder == j.stageOrder && jobs[p].stepOrder >= j.stepOrder)) &&
        forall k: nat :: Claimable(jobs, k) && k !in locked ==>
          var x := jobs[k];
          j.stageOrder < x.stageOrder || (j.stageOrder == x.stageOrder &&
            (j.stepOrder < x.stepOrder || (j.stepOrder == x.stepOrder &&
              (x.priority < j.priority || (x.priority == j.priority && j.createdAt <= x.createdAt)))))
      ensures best.None? ==> forall k: nat :: k < |jobs| && jobs[k].status == Pending && k !in locked ==>
        exists p :: 0 <= p < |jobs| && jobs[p].run == jobs[k].run && jobs[p].status in {Pending, Running} &&
          (jobs[p].stageOrder < jobs[k].stageOrder ||
           (jobs[p].stageOrder == jobs[k].stageOrder && jobs[p].stepOrder < jobs[k].stepOrder))
    {
      best := None;
      for i := 0 to |jobs|
        invariant best.None? ==> forall k: nat :: k < i && Claimable(jobs, k) ==> k in locked
        invariant best.Some? ==> best.value < i && Claimable(jobs, best.value) && best.value !in locked
        invariant best.Some? ==> forall k: nat :: k < i && Claimable(jobs, k) && k !in locked ==>
          SortsFirst(jobs[best.value], jobs[k])
      {
        if i !in locked && Claimable(jobs, i) && (best.None? || !SortsFirst(jobs[best.value], jobs[i])) {
          best := Some(i);
        }
      }
      if best.None? { UnclaimableIsBlocked(jobs, locked); }
    }

    method ClaimNextJob(worker: string, locked: set<nat>, now: Time) returns (row: Option<nat>)
      modifies this
      ensures row.None? ==> Contents() == old(Contents()) && forall k: nat :: Claimable(jobs, k) ==> k in locked
      ensures row.Some? ==> Selected(old(jobs), locked, row.value)
      ensures row.Some? ==> Contents() == Claim(old(Contents()), row.value, worker, now)
      ensures row.Some? ==>
        var j := old(jobs)[row.value];
        j.status == Pending && row.value !in locked &&
        (forall p :: 0 <= p < |old(jobs)| && old(jobs)[p].run == j.run && old(jobs)[p].status in {Pending, Running} ==>
           old(jobs)[p].stageOrder > j.stageOrder ||
           (old(jobs)[p].stageOrder == j.stageOrder && old(jobs)[p].stepOrder >= j.stepOrder)) &&
        forall k: nat :: Claimable(old(jobs), k) && k !in locked ==>
          var x := old(jobs)[k];
          j.stageOrder < x.stageOrder || (j.stageOrder == x.stageOrder &&
            (j.stepOrder < x.stepOrder || (j.stepOrder == x.stepOrder &&
              (x.priority < j.priority || (x.priority == j.priority && j.createdAt <= x.createdAt)))))
      ensures row.None? ==> forall k: nat :: k < |jobs| && jobs[k].status == Pending && k !in locked ==>
        exists p :: 0 <= p < |jobs| && jobs[p].run == jobs[k].run && jobs[p].status in {Pending, Running} &&
          (jobs[p].stageOrder < jobs[k].stageOrder ||
           (jobs[p].stageOrder == jobs[k].stageOrder && jobs[p].stepOrder < jobs[k].stepOrder))
      ensures row.Some? ==>
        jobs == old(jobs)[row.value := old(jobs)[row.value].(
          status := Running, claimedBy := Some(worker), claimedAt := Some(now), heartbeatAt := Some(now),
          startedAt := Some(now))]
      ensures row.Some? ==> runs == Sync(Db(jobs, old(runs)), old(jobs)[row.value].run, now).runs
    {
      row := SelectClaimable(locked);
      if row.Some? {
        jobs := jobs[row.value := ClaimedRow(jobs[row.value], worker, now)];
        FireTrigger(jobs[row.value].run, now);
      }
    }

    method UpdateHeartbeat(id: nat, now: Time)
      modifies this`jobs
      ensures Contents() == Heartbeat(old(Contents()), id, now)
      ensures id < |jobs| ==> jobs == old(jobs)[id := old(jobs)[id].(heartbeatAt := Some(now))]
    {
      if id < |jobs| {
        jobs := jobs[id := jobs[id].(heartbeatAt := Some(now))];
      }
    }

    method MarkCompleted(id: nat, exitCode: int, now: Time)
      modifies this
      ensures Contents() == Completed(old(Contents()), id, exitCode, now)
      ensures id < |jobs| ==>
        jobs == old(jobs)[id := old(jobs)[id].(
          status := Success, exitCode := Some(exitCode), completedAt := Some(now))]
      ensures id < |jobs| ==> runs == Sync(Db(jobs, old(runs)), old(jobs)[id].run, now).runs
    {
      if id < |jobs| {
        jobs := jobs[id := jobs[id].(status := Success, exitCode := Some(exitCode), completedAt := Some(now))];
        FireTrigger(jobs[id].run, now);
      }
    }

    method MarkFailed(id: nat, exitCode: int, now: Time)
      modifies this
      ensures Contents() == Failure(old(Contents()), id, exitCode, now)
      ensures id < |jobs| ==>
        jobs == old(jobs)[id := old(jobs)[id].(
          status := if old(jobs)[id].retryCount + 1 >= old(jobs)[id].maxRetries then Failed else Pending,
          retryCount := old(jobs)[id].retryCount + 1, exitCode := Some(exitCode), claimedBy := None,
          claimedAt := None)]
      ensures id < |jobs| ==> runs == Sync(Db(jobs, old(runs)), old(jobs)[id].run, now).runs
    {
      if id < |jobs| {
        var j := jobs[id];
        var status := if j.retryCount + 1 >= j.maxRetries then Failed else Pending;
        jobs := jobs[id := j.(status := status, retryCount := j.retryCount + 1, exitCode := Some(exitCode),
                              claimedBy := None, claimedAt := None)];
        FireTrigger(j.run, now);
      }
    }

    /** Updates every stuck row, then fires the trigger once for each of them. */
    method ReclaimStuckJobs(timeoutSeconds: int, now: Time)
      modifies this
      ensures Contents() == Reclaim(old(Contents()), timeoutSeconds * SECOND, now)
      ensures |jobs| == old(|jobs|) && forall k :: 0 <= k < |jobs| ==>
        var j := old(jobs)[k];
        jobs[k] ==
          if j.status == Running && j.heartbeatAt.Some? && j.heartbeatAt.value < now - timeoutSeconds * 1_000_000 &&
             j.retryCount < j.maxRetries
          then j.(status := Pending, claimedBy := None, claimedAt := None, retryCount := j.retryCount + 1)
          else j
      ensures |runs| == old(|runs|) && forall r :: 0 <= r < |runs| ==>
        var changed := exists k :: 0 <= k < |jobs| && jobs[k].run == r && jobs[k].status != old(jobs)[k].status;
        runs[r] == if changed then Sync(Db(jobs, old(runs)), r, now).runs[r] else old(runs)[r]
    {
      var timeout := timeoutSeconds * SECOND;
      var before := jobs;
      for i := 0 to |before|
        invariant |jobs| == |before| && runs == old(runs)
        invariant forall k :: 0 <= k < i ==> jobs[k] == ReclaimedRow(before[k], timeout, now)
        invariant forall k :: i <= k < |before| ==> jobs[k] == before[k]
      {
        if Stuck(jobs[i], timeout, now) {
          jobs := jobs[i := jobs[i].(status := Pending, claimedBy := None, claimedAt := None,
                                     retryCount := jobs[i].retryCount + 1)];
        }
      }
      assert jobs == ReclaimedRows(before, timeout, now);
      for i := 0 to |before|
        invariant jobs == ReclaimedRows(before, timeout, now) && |runs| == old(|runs|)
        invariant forall r :: 0 <= r < |runs| ==>
          runs[r] == if RunHasStuck(before[..i], r, timeout, now)
                     then SyncedRun(jobs, r, old(runs)[r], now)
                     else old(runs)[r]
      {
        if Stuck(before[i], timeout, now) { FireTrigger(before[i].run, now); }
        forall r: nat | r < |runs|
          ensures RunHasStuck(before[..i + 1], r, timeout, now) ==
            (RunHasStuck(before[..i], r, timeout, now) || (before[i].run == r && Stuck(before[i], timeout, now)))
        {
          StuckInLonger(before, i, r, timeout, now);
        }
        forall r: nat | r < |runs| ensures SyncedRun(jobs, r, SyncedRun(jobs, r, old(runs)[r], now), now) ==
          SyncedRun(jobs, r, old(runs)[r], now)
        {
          SecondFiringChangesNothing(jobs, r, old(runs)[r], now);
        }
      }
      assert before[..|before|] == before;
    }
  }

  /** A pending row that cannot be claimed has an open job before it in its run. */
  lemma UnclaimableIsBlocked(jobs: seq<Job>, locked: set<nat>)
    requires forall k: nat :: Claimable(jobs, k) ==> k in locked
    ensures forall k: nat :: k < |jobs| && jobs[k].status == Pending && k !in locked ==>
      exists p :: 0 <= p < |jobs| && jobs[p].run == jobs[k].run && jobs[p].status in {Pending, Running} &&
        (jobs[p].stageOrder < jobs[k].stageOrder ||
         (jobs[p].stageOrder == jobs[k].stageOrder && jobs[p].stepOrder < jobs[k].stepOrder))
  {
    forall k: nat | k < |jobs| && jobs[k].status == Pending && k !in locked
      ensures (exists p ::
        0 <= p < |jobs| && jobs[p].run == jobs[k].run && jobs[p].status in {Pending, Running} &&
        (jobs[p].stageOrder < jobs[k].stageOrder ||
         (jobs[p].stageOrder == jobs[k].stageOrder && jobs[p].stepOrder < jobs[k].stepOrder)))
    {
      assert !Gate(jobs, k);
      var p :| 0 <= p < |jobs| && jobs[p].run == jobs[k].run && Before(jobs[p], jobs[k]) && !Terminal(jobs[p].status);
      assert jobs[p].status in {Pending, Running};
    }
  }

  lemma StuckInLonger(jobs: seq<Job>, i: nat, r: nat, timeout: Time, now: Time)
    requires i < |jobs|
    ensures RunHasStuck(jobs[..i + 1], r, timeout, now) ==
      (RunHasStuck(jobs[..i], r, timeout, now) || (jobs[i].run == r && Stuck(jobs[i], timeout, now)))
  {
    if RunHasStuck(jobs[..i], r, timeout, now) {
      var k :| 0 <= k < i && jobs[..i][k].run == r && Stuck(jobs[..i][k], timeout, now);
      assert jobs[..i + 1][k] == jobs[k];
    }
    if jobs[i].run == r && Stuck(jobs[i], timeout, now) { assert jobs[..i + 1][i] == jobs[i]; }
    if RunHasStuck(jobs[..i + 1], r, timeout, now) {
      var k :| 0 <= k < i + 1 && jobs[..i + 1][k].run == r && Stuck(jobs[..i + 1][k], timeout, now);
      if k < i { assert jobs[..i][k] == jobs[k]; }
    }
  }

  /** Firing the trigger again on the same rows changes nothing, so the order of firings is immaterial. */
  lemma SecondFiringChangesNothing(jobs: seq<Job>, r: nat, run: Run, now: Time)
    ensures SyncedRun(jobs, r, SyncedRun(jobs, r, run, now), now) == SyncedRun(jobs, r, run, now)
  {
  }
}
