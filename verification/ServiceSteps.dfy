/**
 The queue service under the many-worker layer: every event of that layer that touches the tables is
 one call of the service, and every such call a live worker may make is an event.
 */
module ServiceSteps {
  import opened Options
  import opened JobTable
  import opened Workers
  import opened JobStore

  /** A row as it is before anything happened to it. */
  function Fresh(row: Job): Job {
    row.(status := Pending, retryCount := 0, claimedBy := None, claimedAt := None, heartbeatAt := None,
         startedAt := None, completedAt := None, exitCode := None)
  }

  /** What a worker may do, whatever the tables hold: only a claim needs a row, and a row that is claimable. */
  lemma WorkersMayAct(s: Sys, w: nat, i: nat, name: string, code: int, row: Job)
    ensures Enabled(s, CreateRun) && Enabled(s, Join) && Enabled(s, ReclaimStuck) && Enabled(s, StrayTick(i))
    ensures w < |s.workers| && s.workers[w].Executing? ==>
      Enabled(s, Tick(w)) && Enabled(s, Succeed(w)) && Enabled(s, LoseReport(w))
    ensures w < |s.workers| && s.workers[w].Executing? && code != 0 ==> Enabled(s, Fail(w, code))
    ensures w < |s.workers| && s.workers[w] != Dead ==> Enabled(s, Crash(w))
    ensures w < |s.workers| && s.workers[w] == Idle && Claimable(s.db.jobs, i) && |s.claims| == |s.db.jobs| ==>
      Enabled(s, ClaimJob(w, i, name))
    ensures row.run < |s.db.runs| && row.maxRetries >= 1 && row == Fresh(row) ==> Enabled(s, InsertJob(row))
  {
  }

  /** All pending rows but i. */
  function Others(jobs: seq<Job>, i: nat): set<nat> {
    set k: nat | k < |jobs| && jobs[k].status.Pending? && k != i
  }

  /** The call of the service behind an event; joining, dying and losing a reply call nothing. */
  method Act(q: Store, a: Action, now: Time, s: Sys) returns (ghost s': Sys)
    requires s.db == q.Contents() && Shape(s) && Enabled(s, a)
    requires a.InsertJob? ==> a.row.maxRetries == 3 && a.row.createdAt == now
    modifies q
    ensures Step(s, Event(a, now), s') && s'.db == q.Contents()
    ensures s'.workers == match a
      case ClaimJob(w, i, _) => s.workers[w := Executing(i)]
      case Succeed(w) => s.workers[w := Idle]
      case Fail(w, _) => s.workers[w := Idle]
      case LoseReport(w) => s.workers[w := Idle]
      case Crash(w) => s.workers[w := Dead]
      case Join => s.workers + [Idle]
      case _ => s.workers
    ensures a.ClaimJob? ==>
      s'.claims == s.claims[a.job := s.claims[a.job] + 1] && s'.log == s.log + [(a.job, s.claims[a.job])]
    ensures !a.ClaimJob? ==> s'.claims == (if a.InsertJob? then s.claims + [0] else s.claims) && s'.log == s.log
  {
    s' := Apply(s, Event(a, now));
    match a {
      case CreateRun => var _ := q.CreatePipelineRun();
      case InsertJob(row) =>
        var _ := q.InsertNewJob(row.run, row.stage, row.stepName, row.command, row.priority, row.stageOrder,
                                row.stepOrder, now);
      case ClaimJob(w, i, name) =>
        var r := q.ClaimNextJob(name, Others(q.jobs, i), now);
        assert r == Some(i);
      case Tick(w) => q.UpdateHeartbeat(s.workers[w].job, now);
      case StrayTick(i) => q.UpdateHeartbeat(i, now);
      case Succeed(w) => q.MarkCompleted(s.workers[w].job, 0, now);
      case Fail(w, code) => q.MarkFailed(s.workers[w].job, code, now);
      case ReclaimStuck => q.ReclaimStuckJobs(30, now);
      case Join =>
      case LoseReport(_) =>
      case Crash(_) =>
    }
  }
}
