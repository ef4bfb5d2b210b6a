/**
 Any number of workers over the tables. Each row operation is one atomic step.

 This layer assumes nothing about who reports what: a worker that was presumed dead may still
 report, and reports match on the job's id alone. What holds here holds in every interleaving.
 */
module Workers {
  import opened JobTable

  const TIMEOUT: Time := 30 * SECOND

  datatype Worker = Idle | Executing(job: nat) | Dead

  /**
   The tables, the workers, and two history variables: how often each job was claimed, and every
   claim so far as (job, number of earlier claims of that job).
   */
  datatype Sys = Sys(db: Db, workers: seq<Worker>, claims: seq<nat>, log: seq<(nat, nat)>)

  datatype Action =
    | CreateRun
    | InsertJob(row: Job)
    | Join
    | ClaimJob(worker: nat, job: nat, name: string)
    | Tick(worker: nat)                // heartbeat of the job being executed
    | StrayTick(job: nat)              // heartbeat still in flight when its job was reported
    | Succeed(worker: nat)             // markCompleted with exit code 0
    | Fail(worker: nat, code: int)     // markFailed
    | LoseReport(worker: nat)          // the report's query failed; the loop goes on
    | Crash(worker: nat)
    | ReclaimStuck

  datatype Event = Event(action: Action, now: Time)

  /** A row as `insertNewJob` writes it, for any retry limit of at least one. */
  predicate IsNew(row: Job) {
    row.status.Pending? && row.retryCount == 0 && row.maxRetries >= 1 &&
    row.claimedBy.None? && row.claimedAt.None? && row.heartbeatAt.None? && row.startedAt.None? &&
    row.completedAt.None? && row.exitCode.None?
  }

  predicate IsExecuting(s: Sys, w: nat) {
    w < |s.workers| && s.workers[w].Executing?
  }

  predicate NoneExecuting(s: Sys) {
    forall w :: 0 <= w < |s.workers| ==> !s.workers[w].Executing?
  }

  predicate Enabled(s: Sys, a: Action) {
    match a
    case CreateRun => true
    case InsertJob(row) => IsNew(row) && row.run < |s.db.runs|
    case Join => true
    case ClaimJob(w, i, _) =>
      w < |s.workers| && s.workers[w].Idle? && Claimable(s.db.jobs, i) && i < |s.claims|
    case StrayTick(i) => true
    case Tick(w) => IsExecuting(s, w)
    case Succeed(w) => IsExecuting(s, w)
    case Fail(w, code) => IsExecuting(s, w) && code != 0
    case LoseReport(w) => IsExecuting(s, w)
    case Crash(w) => w < |s.workers| && !s.workers[w].Dead?
    case ReclaimStuck => true
  }

  function AfterClaim(s: Sys, w: nat, i: nat, name: string, now: Time): Sys
    requires w < |s.workers| && i < |s.db.jobs| && i < |s.claims|
  {
    Sys(Claim(s.db, i, name, now), s.workers[w := Executing(i)],
        s.claims[i := s.claims[i] + 1], s.log + [(i, s.claims[i])])
  }

  function Apply(s: Sys, e: Event): Sys
    requires Enabled(s, e.action)
  {
    match e.action
    case CreateRun => s.(db := s.db.(runs := s.db.runs + [NEW_RUN]))
    case InsertJob(row) => s.(db := Insert(s.db, row, e.now), claims := s.claims + [0])
    case Join => s.(workers := s.workers + [Idle])
    case ClaimJob(w, i, name) => AfterClaim(s, w, i, name, e.now)
    case Tick(w) => s.(db := Heartbeat(s.db, s.workers[w].job, e.now))
    case StrayTick(i) => s.(db := Heartbeat(s.db, i, e.now))
    case Succeed(w) =>
      s.(db := Completed(s.db, s.workers[w].job, 0, e.now), workers := s.workers[w := Idle])
    case Fail(w, code) =>
      s.(db := Failure(s.db, s.workers[w].job, code, e.now), workers := s.workers[w := Idle])
    case LoseReport(w) => s.(workers := s.workers[w := Idle])
    case Crash(w) => s.(workers := s.workers[w := Dead])
    case ReclaimStuck => s.(db := Reclaim(s.db, TIMEOUT, e.now))
  }

  predicate Step(s: Sys, e: Event, s': Sys) {
    Enabled(s, e.action) && s' == Apply(s, e)
  }

  /** states[k] becomes states[k + 1] by events[k]. */
  predicate StepAt(states: seq<Sys>, events: seq<Event>, k: nat) {
    k < |events| && k + 1 < |states| && Step(states[k], events[k], states[k + 1])
  }

  ghost predicate IsRun(states: seq<Sys>, events: seq<Event>) {
    |states| == |events| + 1 && forall k: nat :: k < |events| ==> StepAt(states, events, k)
  }

  const EMPTY: Sys := Sys(Db([], []), [], [], [])

  // ---------- What the trigger guarantees in every interleaving ----------

  predicate Shape(s: Sys) {
    |s.claims| == |s.db.jobs| &&
    (forall i :: 0 <= i < |s.db.jobs| ==> s.db.jobs[i].run < |s.db.runs|) &&
    (forall w :: 0 <= w < |s.workers| && s.workers[w].Executing? ==> s.workers[w].job < |s.db.jobs|)
  }

  /** A run with a running job is running; a run whose jobs are all terminal has their outcome. */
  predicate RunInStep(db: Db, r: nat)
    requires r < |db.runs|
  {
    (HasStatus(db.jobs, r, Running) ==> db.runs[r].status.Running? && db.runs[r].startedAt.Some?) &&
    (HasJobs(db.jobs, r) && AllTerminal(db.jobs, r) ==>
       db.runs[r].status == Outcome(db.jobs, r) && db.runs[r].completedAt.Some?)
  }

  predicate RunsInStep(db: Db) {
    forall r: nat :: r < |db.runs| ==> RunInStep(db, r)
  }

  /** Run r has the same jobs with the same statuses in both tables. */
  predicate SameRunStatuses(jobs: seq<Job>, jobs': seq<Job>, r: nat) {
    |jobs| <= |jobs'| &&
    (forall k :: 0 <= k < |jobs| ==>
       (jobs'[k].run == r <==> jobs[k].run == r) && (jobs[k].run == r ==> jobs'[k].status == jobs[k].status)) &&
    (forall k :: |jobs| <= k < |jobs'| ==> jobs'[k].run != r)
  }

  lemma SameRunStatusesAgree(jobs: seq<Job>, jobs': seq<Job>, r: nat)
    requires SameRunStatuses(jobs, jobs', r)
    ensures HasStatus(jobs', r, Running) == HasStatus(jobs, r, Running)
    ensures HasStatus(jobs', r, Failed) == HasStatus(jobs, r, Failed)
    ensures AllTerminal(jobs', r) == AllTerminal(jobs, r)
    ensures HasJobs(jobs', r) == HasJobs(jobs, r)
  {
    forall s | HasStatus(jobs, r, s) ensures HasStatus(jobs', r, s) {
      var k :| 0 <= k < |jobs| && jobs[k].run == r && jobs[k].status == s;
      assert jobs'[k].run == r && jobs'[k].status == s;
    }
    if HasJobs(jobs, r) {
      var k :| 0 <= k < |jobs| && jobs[k].run == r;
      assert jobs'[k].run == r;
    }
  }

  /** A statement that synchronises r and touches no other run's statuses keeps every run in step. */
  lemma SyncKeepsRunsInStep(db: Db, jobs': seq<Job>, r: nat, now: Time)
    requires RunsInStep(db)
    requires forall q: nat :: q != r ==> SameRunStatuses(db.jobs, jobs', q)
    ensures RunsInStep(Sync(Db(jobs', db.runs), r, now))
  {
    var db' := Sync(Db(jobs', db.runs), r, now);
    forall q: nat | q < |db'.runs| ensures RunInStep(db', q) {
      assert RunInStep(db, q);
      if q != r { SameRunStatusesAgree(db.jobs, jobs', q); }
    }
  }

  lemma ReclaimKeepsRunsInStep(db: Db, timeout: Time, now: Time)
    requires RunsInStep(db)
    ensures RunsInStep(Reclaim(db, timeout, now))
  {
    var db' := Reclaim(db, timeout, now);
    forall q: nat | q < |db'.runs| ensures RunInStep(db', q) {
      assert RunInStep(db, q);
      if !RunHasStuck(db.jobs, q, timeout, now) {
        assert SameRunStatuses(db.jobs, db'.jobs, q);
        SameRunStatusesAgree(db.jobs, db'.jobs, q);
      }
    }
  }

  lemma NewRunKeepsRunsInStep(db: Db)
    requires RunsInStep(db)
    requires forall i :: 0 <= i < |db.jobs| ==> db.jobs[i].run < |db.runs|
    ensures RunsInStep(db.(runs := db.runs + [NEW_RUN]))
  {
    var db' := db.(runs := db.runs + [NEW_RUN]);
    forall q: nat | q < |db'.runs| ensures RunInStep(db', q) {
      if q < |db.runs| { assert RunInStep(db, q); }
    }
  }

  lemma StepKeepsShape(s: Sys, e: Event, s': Sys)
    requires Shape(s) && Step(s, e, s')
    ensures Shape(s')
  {
    match e.action {
      case ClaimJob(_, _, _) =>
      case Succeed(_) =>
      case Fail(_, _) =>
      case ReclaimStuck =>
      case InsertJob(_) =>
      case _ =>
    }
  }

  lemma StepKeepsRunsInStep(s: Sys, e: Event, s': Sys)
    requires Shape(s) && RunsInStep(s.db) && Step(s, e, s')
    ensures RunsInStep(s'.db)
  {
    var jobs := s.db.jobs;
    match e.action {
      case CreateRun => NewRunKeepsRunsInStep(s.db);
      case InsertJob(row) => SyncKeepsRunsInStep(s.db, jobs + [row], row.run, e.now);
      case ClaimJob(w, i, name) =>
        SyncKeepsRunsInStep(s.db, jobs[i := ClaimedRow(jobs[i], name, e.now)], jobs[i].run, e.now);
      case Succeed(w) =>
        var i := s.workers[w].job;
        SyncKeepsRunsInStep(s.db, jobs[i := CompletedRow(jobs[i], 0, e.now)], jobs[i].run, e.now);
      case Fail(w, code) =>
        var i := s.workers[w].job;
        SyncKeepsRunsInStep(s.db, jobs[i := FailedRow(jobs[i], code)], jobs[i].run, e.now);
      case ReclaimStuck => ReclaimKeepsRunsInStep(s.db, TIMEOUT, e.now);
      case Tick(w) => HeartbeatKeepsRunsInStep(s.db, s.workers[w].job, e.now);
      case StrayTick(i) => HeartbeatKeepsRunsInStep(s.db, i, e.now);
      case Join =>
      case LoseReport(_) =>
      case Crash(_) =>
    }
  }

  lemma HeartbeatKeepsRunsInStep(db: Db, i: nat, now: Time)
    requires RunsInStep(db)
    ensures RunsInStep(Heartbeat(db, i, now))
  {
    var db' := Heartbeat(db, i, now);
    forall q: nat | q < |db'.runs| ensures RunInStep(db', q) {
      assert RunInStep(db, q);
      SameRunStatusesAgree(db.jobs, db'.jobs, q);
    }
  }

  /** In every run, after every step, stale reports, late inserts and multi-row reclaims included. */
  lemma {:induction false} RunsAlwaysInStep(states: seq<Sys>, events: seq<Event>, k: nat)
    requires IsRun(states, events) && states[0] == EMPTY && k < |states|
    ensures Shape(states[k]) && RunsInStep(states[k].db)
  {
    if k > 0 {
      RunsAlwaysInStep(states, events, k - 1);
      assert StepAt(states, events, k - 1);
      StepKeepsShape(states[k - 1], events[k - 1], states[k]);
      StepKeepsRunsInStep(states[k - 1], events[k - 1], states[k]);
    }
  }
}
