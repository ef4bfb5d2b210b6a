/**
 The layer in which two assumptions hold.

 A1: jobs are inserted into a run only before any of its jobs is claimed, each at its own
 (stage_order, step_order). A2: a reclaim never takes a job from a worker that is still executing
 it; the module Timed derives A2 from the heartbeat timing.
 */
module SafeRuns {
  import opened JobTable
  import opened Workers

  /** A2 for one reclaim. */
  predicate SparesLiveWorkers(s: Sys, now: Time) {
    forall w :: 0 <= w < |s.workers| && s.workers[w].Executing? && s.workers[w].job < |s.db.jobs| ==>
      !Stuck(s.db.jobs[s.workers[w].job], TIMEOUT, now)
  }

  /** A1 for one insert. */
  predicate JoinsUnclaimedRun(s: Sys, row: Job) {
    forall i :: 0 <= i < |s.db.jobs| && i < |s.claims| && s.db.jobs[i].run == row.run ==>
      s.claims[i] == 0 && (Before(s.db.jobs[i], row) || Before(row, s.db.jobs[i]))
  }

  predicate A1(s: Sys, e: Event) {
    e.action.InsertJob? ==> JoinsUnclaimedRun(s, e.action.row)
  }

  predicate A2(s: Sys, e: Event) {
    e.action.ReclaimStuck? ==> SparesLiveWorkers(s, e.now)
  }

  predicate SafeStep(s: Sys, e: Event, s': Sys) {
    Step(s, e, s') && A1(s, e) && A2(s, e)
  }

  predicate SafeStepAt(states: seq<Sys>, events: seq<Event>, k: nat) {
    k < |events| && k + 1 < |states| && SafeStep(states[k], events[k], states[k + 1])
  }

  ghost predicate IsSafeRun(states: seq<Sys>, events: seq<Event>) {
    |states| == |events| + 1 && forall k: nat :: k < |events| ==> SafeStepAt(states, events, k)
  }

  lemma SafeRunIsRun(states: seq<Sys>, events: seq<Event>)
    requires IsSafeRun(states, events)
    ensures IsRun(states, events)
  {
    forall k: nat | k < |events| ensures StepAt(states, events, k) { assert SafeStepAt(states, events, k); }
  }

  /** A step with A1 but perhaps without A2. */
  predicate A1StepAt(states: seq<Sys>, events: seq<Event>, k: nat) {
    StepAt(states, events, k) && A1(states[k], events[k])
  }

  ghost predicate IsA1Run(states: seq<Sys>, events: seq<Event>) {
    |states| == |events| + 1 && forall k: nat :: k < |events| ==> A1StepAt(states, events, k)
  }

  // ---------- The invariant ----------

  /** Attempt conservation for a job claimed c times. */
  predicate Conserved(j: Job, c: nat) {
    j.maxRetries >= 1 && j.retryCount >= 0 && !j.status.Cancelled? &&
    c == j.retryCount + (if j.status.Running? || j.status.Success? then 1 else 0) &&
    (if j.status.Failed? then j.maxRetries <= j.retryCount <= j.maxRetries + 1
     else j.retryCount <= j.maxRetries) &&
    (j.startedAt.Some? <==> c > 0) &&
    (j.status.Running? ==> j.heartbeatAt.Some?) &&
    (j.claimedBy.Some? <==> j.status.Running? || j.status.Success?) &&
    (j.completedAt.Some? <==> j.status.Success?)
  }

  predicate JobsOk(s: Sys) {
    Shape(s) && forall i :: 0 <= i < |s.db.jobs| ==> Conserved(s.db.jobs[i], s.claims[i])
  }

  /** An executed job is running, and no two workers execute the same one. */
  predicate OwnersOk(jobs: seq<Job>, workers: seq<Worker>) {
    (forall w :: 0 <= w < |workers| && workers[w].Executing? ==>
       workers[w].job < |jobs| && jobs[workers[w].job].status.Running?) &&
    (forall v, w ::
       0 <= v < |workers| && 0 <= w < |workers| && v != w && workers[v].Executing? && workers[w].Executing? ==>
       workers[v].job != workers[w].job)
  }

  predicate KeysDistinct(jobs: seq<Job>) {
    forall i, j :: 0 <= i < |jobs| && 0 <= j < |jobs| && i != j && jobs[i].run == jobs[j].run ==>
      Before(jobs[i], jobs[j]) || Before(jobs[j], jobs[i])
  }

  predicate EarlierInRun(jobs: seq<Job>, i: nat, j: nat) {
    i < |jobs| && j < |jobs| && jobs[i].run == jobs[j].run && Before(jobs[i], jobs[j])
  }

  /** Once a job has been claimed, every earlier job of its run is terminal. */
  ghost predicate InOrder(jobs: seq<Job>, claims: seq<nat>)
    requires |claims| == |jobs|
  {
    forall i: nat, j: nat :: EarlierInRun(jobs, i, j) && claims[j] > 0 ==> Terminal(jobs[i].status)
  }

  predicate AnyStarted(jobs: seq<Job>, r: nat) {
    exists k :: 0 <= k < |jobs| && jobs[k].run == r && jobs[k].startedAt.Some?
  }

  /** A run's status as a function of its jobs alone. */
  function RunStatusOf(jobs: seq<Job>, r: nat): Status {
    if !HasJobs(jobs, r) then Pending
    else if AllTerminal(jobs, r) then Outcome(jobs, r)
    else if AnyStarted(jobs, r) then Running
    else Pending
  }

  predicate RunExact(jobs: seq<Job>, r: nat, run: Run) {
    run.status == RunStatusOf(jobs, r) &&
    (run.startedAt.Some? <==> AnyStarted(jobs, r)) &&
    (run.completedAt.Some? <==> HasJobs(jobs, r) && AllTerminal(jobs, r))
  }

  predicate RunsExact(db: Db) {
    forall r: nat :: r < |db.runs| ==> RunExact(db.jobs, r, db.runs[r])
  }

  ghost predicate Safe(s: Sys) {
    JobsOk(s) && OwnersOk(s.db.jobs, s.workers) && KeysDistinct(s.db.jobs) &&
    InOrder(s.db.jobs, s.claims) && RunsExact(s.db)
  }

  // ---------- What a safe step does to the table ----------

  predicate SameKey(a: Job, b: Job) {
    a.run == b.run && a.stageOrder == b.stageOrder && a.stepOrder == b.stepOrder && a.maxRetries == b.maxRetries
  }

  /** No row disappears or moves, and terminal stays terminal with the same status. */
  predicate Advances(jobs: seq<Job>, jobs': seq<Job>) {
    |jobs| <= |jobs'| && forall k :: 0 <= k < |jobs| ==>
      SameKey(jobs[k], jobs'[k]) && (Terminal(jobs[k].status) ==> jobs'[k].status == jobs[k].status)
  }

  lemma StepAdvances(s: Sys, e: Event, s': Sys)
    requires JobsOk(s) && OwnersOk(s.db.jobs, s.workers) && SafeStep(s, e, s')
    ensures Advances(s.db.jobs, s'.db.jobs)
  {
    match e.action {
      case ClaimJob(_, _, _) =>
      case Succeed(_) =>
      case Fail(_, _) =>
      case ReclaimStuck =>
      case InsertJob(_) =>
      case _ =>
    }
  }

  // ---------- Preservation ----------

  lemma StepKeepsJobsOk(s: Sys, e: Event, s': Sys)
    requires JobsOk(s) && OwnersOk(s.db.jobs, s.workers) && SafeStep(s, e, s')
    ensures JobsOk(s')
  {
    StepKeepsShape(s, e, s');
    match e.action {
      case ClaimJob(_, _, _) =>
      case Succeed(_) =>
      case Fail(_, _) =>
      case ReclaimStuck =>
      case InsertJob(_) =>
      case _ =>
    }
  }

  /** An attempt ends: its row may become anything. */
  lemma EndedAttemptKeepsOwners(jobs: seq<Job>, workers: seq<Worker>, w: nat, row: Job, x: Worker)
    requires OwnersOk(jobs, workers) && w < |workers| && workers[w].Executing? && !x.Executing?
    ensures OwnersOk(jobs[workers[w].job := row], workers[w := x])
  {
  }

  lemma LeavingKeepsOwners(jobs: seq<Job>, workers: seq<Worker>, w: nat, x: Worker)
    requires OwnersOk(jobs, workers) && w < |workers| && !x.Executing?
    ensures OwnersOk(jobs, workers[w := x])
  {
  }

  lemma ClaimKeepsOwners(jobs: seq<Job>, workers: seq<Worker>, w: nat, i: nat, row: Job)
    requires OwnersOk(jobs, workers) && w < |workers| && i < |jobs| && jobs[i].status.Pending?
    requires row.status.Running?
    ensures OwnersOk(jobs[i := row], workers[w := Executing(i)])
  {
  }

  lemma RowsKeepOwners(jobs: seq<Job>, jobs': seq<Job>, workers: seq<Worker>)
    requires OwnersOk(jobs, workers) && |jobs| <= |jobs'|
    requires forall w :: 0 <= w < |workers| && workers[w].Executing? ==> jobs'[workers[w].job].status.Running?
    ensures OwnersOk(jobs', workers)
  {
  }

  lemma StepKeepsOwnersOk(s: Sys, e: Event, s': Sys)
    requires JobsOk(s) && OwnersOk(s.db.jobs, s.workers) && SafeStep(s, e, s')
    ensures OwnersOk(s'.db.jobs, s'.workers)
  {
    var jobs, jobs' := s.db.jobs, s'.db.jobs;
    match e.action {
      case ClaimJob(w, i, name) => ClaimKeepsOwners(jobs, s.workers, w, i, ClaimedRow(jobs[i], name, e.now));
      case Succeed(w) =>
        var i := s.workers[w].job;
        EndedAttemptKeepsOwners(jobs, s.workers, w, CompletedRow(jobs[i], 0, e.now), Idle);
      case Fail(w, code) =>
        var i := s.workers[w].job;
        EndedAttemptKeepsOwners(jobs, s.workers, w, FailedRow(jobs[i], code), Idle);
      case LoseReport(w) => LeavingKeepsOwners(jobs, s.workers, w, Idle);
      case Crash(w) => LeavingKeepsOwners(jobs, s.workers, w, Dead);
      case ReclaimStuck => RowsKeepOwners(jobs, jobs', s.workers);
      case Tick(_) => RowsKeepOwners(jobs, jobs', s.workers);
      case StrayTick(_) => RowsKeepOwners(jobs, jobs', s.workers);
      case InsertJob(_) => RowsKeepOwners(jobs, jobs', s.workers);
      case _ =>
    }
  }

  lemma RowsKeepOrder(jobs: seq<Job>, claims: seq<nat>, jobs': seq<Job>, claims': seq<nat>)
    requires |claims| == |jobs| == |jobs'| == |claims'|
    requires KeysDistinct(jobs) && InOrder(jobs, claims) && Advances(jobs, jobs')
    requires forall k :: 0 <= k < |jobs| && claims'[k] > 0 ==> claims[k] > 0 || Gate(jobs, k)
    ensures KeysDistinct(jobs') && InOrder(jobs', claims')
  {
    forall i: nat, j: nat | EarlierInRun(jobs', i, j) && claims'[j] > 0 ensures Terminal(jobs'[i].status) {
      assert EarlierInRun(jobs, i, j);
    }
  }

  lemma InsertKeepsOrder(s: Sys, row: Job)
    requires |s.claims| == |s.db.jobs|
    requires KeysDistinct(s.db.jobs) && InOrder(s.db.jobs, s.claims) && JoinsUnclaimedRun(s, row)
    ensures KeysDistinct(s.db.jobs + [row]) && InOrder(s.db.jobs + [row], s.claims + [0])
  {
    var jobs := s.db.jobs + [row];
    forall i: nat, j: nat | EarlierInRun(jobs, i, j) && (s.claims + [0])[j] > 0 ensures Terminal(jobs[i].status) {
      if i < |s.db.jobs| { assert EarlierInRun(s.db.jobs, i, j); }
    }
  }

  lemma StepKeepsOrder(s: Sys, e: Event, s': Sys)
    requires JobsOk(s) && OwnersOk(s.db.jobs, s.workers) && KeysDistinct(s.db.jobs) && InOrder(s.db.jobs, s.claims)
    requires SafeStep(s, e, s')
    ensures |s'.claims| == |s'.db.jobs| && KeysDistinct(s'.db.jobs) && InOrder(s'.db.jobs, s'.claims)
  {
    StepAdvances(s, e, s');
    if e.action.InsertJob? {
      InsertKeepsOrder(s, e.action.row);
    } else {
      RowsKeepOrder(s.db.jobs, s.claims, s'.db.jobs, s'.claims);
    }
  }

  /** Run r has the same jobs, each as pending, running or terminal and as started as before. */
  predicate SameRunRows(jobs: seq<Job>, jobs': seq<Job>, r: nat) {
    SameRunStatuses(jobs, jobs', r) && forall k :: 0 <= k < |jobs| && jobs[k].run == r ==>
      (jobs'[k].startedAt.Some? <==> jobs[k].startedAt.Some?)
  }

  lemma SameRunRowsAgree(jobs: seq<Job>, jobs': seq<Job>, r: nat, run: Run)
    requires SameRunRows(jobs, jobs', r) && RunExact(jobs, r, run)
    ensures RunExact(jobs', r, run)
  {
    SameRunStatusesAgree(jobs, jobs', r);
    if k :| 0 <= k < |jobs| && jobs[k].run == r && jobs[k].startedAt.Some? {
      assert jobs'[k].run == r && jobs'[k].startedAt.Some?;
    }
  }

  /** The trigger's incremental update of an unfinished run computes the pure function. */
  lemma SyncedRunExact(jobs: seq<Job>, jobs': seq<Job>, r: nat, run: Run, now: Time)
    requires RunExact(jobs, r, run)
    requires HasJobs(jobs, r) ==> !AllTerminal(jobs, r)
    requires HasJobs(jobs', r)
    requires HasStatus(jobs', r, Running) ==> AnyStarted(jobs', r)
    requires !HasStatus(jobs', r, Running) ==> (AnyStarted(jobs', r) <==> AnyStarted(jobs, r))
    ensures RunExact(jobs', r, SyncedRun(jobs', r, run, now))
  {
  }

  lemma RunningIsStarted(s: Sys, r: nat)
    requires JobsOk(s)
    ensures HasStatus(s.db.jobs, r, Running) ==> AnyStarted(s.db.jobs, r)
  {
  }

  /** A statement that writes row i, pending or running before, and fires the trigger for it. */
  lemma WriteKeepsRunsExact(s: Sys, i: nat, row: Job, now: Time, s': Sys)
    requires JobsOk(s) && JobsOk(s') && RunsExact(s.db) && i < |s.db.jobs|
    requires !Terminal(s.db.jobs[i].status) && SameKey(s.db.jobs[i], row)
    requires row.status.Running? || (row.startedAt.Some? <==> s.db.jobs[i].startedAt.Some?)
    requires s'.db == WriteStatus(s.db, i, row, now)
    ensures RunsExact(s'.db)
  {
    var jobs, jobs', r := s.db.jobs, s'.db.jobs, s.db.jobs[i].run;
    forall q: nat | q < |s'.db.runs| ensures RunExact(jobs', q, s'.db.runs[q]) {
      assert RunExact(jobs, q, s.db.runs[q]);
      if q != r {
        SameRunRowsAgree(jobs, jobs', q, s.db.runs[q]);
      } else {
        assert jobs'[i].run == r;
        RunningIsStarted(s', r);
        if !HasStatus(jobs', r, Running) { StartedAsBefore(jobs, jobs', r); }
        SyncedRunExact(jobs, jobs', r, s.db.runs[r], now);
      }
    }
  }

  lemma StartedAsBefore(jobs: seq<Job>, jobs': seq<Job>, r: nat)
    requires |jobs| == |jobs'|
    requires forall k :: 0 <= k < |jobs| ==>
      jobs'[k].run == jobs[k].run && (jobs'[k].startedAt.Some? <==> jobs[k].startedAt.Some?)
    ensures AnyStarted(jobs', r) <==> AnyStarted(jobs, r)
  {
    if k :| 0 <= k < |jobs| && jobs[k].run == r && jobs[k].startedAt.Some? {
      assert jobs'[k].run == r && jobs'[k].startedAt.Some?;
    }
  }

  lemma RowsKeepRunsExact(db: Db, jobs': seq<Job>)
    requires RunsExact(db)
    requires forall q: nat :: q < |db.runs| ==> SameRunRows(db.jobs, jobs', q)
    ensures RunsExact(Db(jobs', db.runs))
  {
    forall q: nat | q < |db.runs| ensures RunExact(jobs', q, db.runs[q]) {
      SameRunRowsAgree(db.jobs, jobs', q, db.runs[q]);
    }
  }

  lemma NewRunKeepsRunsExact(s: Sys)
    requires Shape(s) && RunsExact(s.db)
    ensures RunsExact(s.db.(runs := s.db.runs + [NEW_RUN]))
  {
    var runs := s.db.runs + [NEW_RUN];
    forall q: nat | q < |runs| ensures RunExact(s.db.jobs, q, runs[q]) {
      if q < |s.db.runs| { assert RunExact(s.db.jobs, q, s.db.runs[q]); }
    }
  }

  lemma InsertKeepsRunsExact(s: Sys, row: Job, now: Time, s': Sys)
    requires JobsOk(s) && JobsOk(s') && RunsExact(s.db)
    requires IsNew(row) && row.run < |s.db.runs| && JoinsUnclaimedRun(s, row)
    requires s'.db == Insert(s.db, row, now)
    ensures RunsExact(s'.db)
  {
    var jobs, jobs', r := s.db.jobs, s'.db.jobs, row.run;
    assert jobs'[|jobs|].run == r;
    forall q: nat | q < |s'.db.runs| ensures RunExact(jobs', q, s'.db.runs[q]) {
      assert RunExact(jobs, q, s.db.runs[q]);
      if q != r {
        SameRunRowsAgree(jobs, jobs', q, s.db.runs[q]);
      } else {
        RunningIsStarted(s', r);
        SyncedRunExact(jobs, jobs', r, s.db.runs[r], now);
      }
    }
  }

  lemma ReclaimKeepsRunsExact(s: Sys, timeout: Time, now: Time, s': Sys)
    requires JobsOk(s) && JobsOk(s') && RunsExact(s.db)
    requires s'.db == Reclaim(s.db, timeout, now)
    ensures RunsExact(s'.db)
  {
    var jobs, jobs' := s.db.jobs, s'.db.jobs;
    forall q: nat | q < |s'.db.runs| ensures RunExact(jobs', q, s'.db.runs[q]) {
      assert RunExact(jobs, q, s.db.runs[q]);
      if k :| 0 <= k < |jobs| && jobs[k].run == q && Stuck(jobs[k], timeout, now) {
        assert jobs'[k].run == q;
        RunningIsStarted(s', q);
        StartedAsBefore(jobs, jobs', q);
        SyncedRunExact(jobs, jobs', q, s.db.runs[q], now);
      } else {
        SameRunRowsAgree(jobs, jobs', q, s.db.runs[q]);
      }
    }
  }

  lemma StepKeepsRunsExact(s: Sys, e: Event, s': Sys)
    requires JobsOk(s) && JobsOk(s') && OwnersOk(s.db.jobs, s.workers) && RunsExact(s.db) && SafeStep(s, e, s')
    ensures RunsExact(s'.db)
  {
    var jobs := s.db.jobs;
    match e.action {
      case CreateRun => NewRunKeepsRunsExact(s);
      case InsertJob(row) => InsertKeepsRunsExact(s, row, e.now, s');
      case ClaimJob(_, i, name) => WriteKeepsRunsExact(s, i, ClaimedRow(jobs[i], name, e.now), e.now, s');
      case Succeed(w) =>
        var i := s.workers[w].job;
        WriteKeepsRunsExact(s, i, CompletedRow(jobs[i], 0, e.now), e.now, s');
      case Fail(w, code) =>
        var i := s.workers[w].job;
        WriteKeepsRunsExact(s, i, FailedRow(jobs[i], code), e.now, s');
      case ReclaimStuck => ReclaimKeepsRunsExact(s, TIMEOUT, e.now, s');
      case Tick(_) => RowsKeepRunsExact(s.db, s'.db.jobs);
      case StrayTick(_) => RowsKeepRunsExact(s.db, s'.db.jobs);
      case _ =>
    }
  }

  /** Every safe step keeps: conservation, ownership, order, and the exact status of every run. */
  lemma StepKeepsSafe(s: Sys, e: Event, s': Sys)
    requires Safe(s) && SafeStep(s, e, s')
    ensures Safe(s')
  {
    StepKeepsJobsOk(s, e, s');
    StepKeepsOwnersOk(s, e, s');
    StepKeepsOrder(s, e, s');
    StepKeepsRunsExact(s, e, s');
  }

  lemma {:induction false} RunsAreSafe(states: seq<Sys>, events: seq<Event>, k: nat)
    requires IsSafeRun(states, events) && Safe(states[0]) && k < |states|
    ensures Safe(states[k])
  {
    if k > 0 {
      RunsAreSafe(states, events, k - 1);
      assert SafeStepAt(states, events, k - 1);
      StepKeepsSafe(states[k - 1], events[k - 1], states[k]);
    }
  }

  lemma EmptyIsSafe()
    ensures Safe(EMPTY)
  {
  }

  lemma {:induction false} RunsAdvance(states: seq<Sys>, events: seq<Event>, m: nat, k: nat)
    requires IsSafeRun(states, events) && Safe(states[0]) && m <= k < |states|
    ensures Advances(states[m].db.jobs, states[k].db.jobs)
  {
    if m < k {
      RunsAdvance(states, events, m, k - 1);
      StepAdvancesAt(states, events, k - 1);
      AdvancesTransitive(states[m].db.jobs, states[k - 1].db.jobs, states[k].db.jobs);
    }
  }

  lemma StepAdvancesAt(states: seq<Sys>, events: seq<Event>, k: nat)
    requires IsSafeRun(states, events) && Safe(states[0]) && k < |events|
    ensures Advances(states[k].db.jobs, states[k + 1].db.jobs)
  {
    RunsAreSafe(states, events, k);
    assert SafeStepAt(states, events, k);
    StepAdvances(states[k], events[k], states[k + 1]);
  }

  lemma AdvancesTransitive(a: seq<Job>, b: seq<Job>, c: seq<Job>)
    requires Advances(a, b) && Advances(b, c)
    ensures Advances(a, c)
  {
  }

  // ---------- What the invariant means ----------

  /**
   Attempt conservation: a job's claims are its retries, plus one if it is running or succeeded; it
   fails on its max_retries-th retry, or one later if a reclaim used the last but one. Only a success
   gets a completion time, and a failed attempt leaves no claimant.
   */
  lemma AttemptsAreConserved(states: seq<Sys>, events: seq<Event>, k: nat, i: nat)
    requires IsSafeRun(states, events) && states[0] == EMPTY && k < |states| && i < |states[k].db.jobs|
    ensures var s := states[k];
      var j := s.db.jobs[i];
      |s.claims| == |s.db.jobs| &&
      s.claims[i] == j.retryCount + (if j.status.Running? || j.status.Success? then 1 else 0) &&
      (!j.status.Failed? ==> j.retryCount <= j.maxRetries) &&
      (j.completedAt.Some? <==> j.status.Success?) &&
      (j.claimedBy.Some? <==> j.status.Running? || j.status.Success?) &&
      (j.status.Failed? ==> j.retryCount == j.maxRetries || j.retryCount == j.maxRetries + 1)
  {
    EmptyIsSafe();
    RunsAreSafe(states, events, k);
    assert Conserved(states[k].db.jobs[i], states[k].claims[i]);
  }

  /** The status the trigger maintains step by step is the pure function of the run's jobs. */
  lemma RunStatusIsExact(states: seq<Sys>, events: seq<Event>, k: nat, r: nat)
    requires IsSafeRun(states, events) && states[0] == EMPTY && k < |states| && r < |states[k].db.runs|
    ensures states[k].db.runs[r].status == RunStatusOf(states[k].db.jobs, r)
    ensures states[k].db.runs[r].startedAt.Some? <==> AnyStarted(states[k].db.jobs, r)
    ensures states[k].db.runs[r].completedAt.Some? <==>
      HasJobs(states[k].db.jobs, r) && AllTerminal(states[k].db.jobs, r)
  {
    EmptyIsSafe();
    RunsAreSafe(states, events, k);
    assert RunExact(states[k].db.jobs, r, states[k].db.runs[r]);
  }

  /** ids lists jobs of run r in config order. */
  predicate InConfigOrder(jobs: seq<Job>, r: nat, ids: seq<nat>) {
    (forall a :: 0 <= a < |ids| ==> ids[a] < |jobs| && jobs[ids[a]].run == r) &&
    (forall a, b :: 0 <= a < b < |ids| ==> Before(jobs[ids[a]], jobs[ids[b]]))
  }

  predicate ListsRun(jobs: seq<Job>, r: nat, ids: seq<nat>) {
    InConfigOrder(jobs, r, ids) && forall i :: 0 <= i < |jobs| && jobs[i].run == r ==> i in ids
  }

  /** The number of leading terminal jobs. */
  function Frontier(jobs: seq<Job>, ids: seq<nat>): (p: nat)
    requires forall a :: 0 <= a < |ids| ==> ids[a] < |jobs|
    ensures p <= |ids| && forall a :: 0 <= a < p ==> Terminal(jobs[ids[a]].status)
    ensures p < |ids| ==> !Terminal(jobs[ids[p]].status)
  {
    if ids == [] || !Terminal(jobs[ids[0]].status) then 0 else 1 + Frontier(jobs, ids[1..])
  }

  /** Prefix shape: terminal jobs, then at most one that is running or between attempts, then untouched ones. */
  lemma PrefixShape(states: seq<Sys>, events: seq<Event>, k: nat, r: nat, ids: seq<nat>)
    requires IsSafeRun(states, events) && states[0] == EMPTY && k < |states|
    requires InConfigOrder(states[k].db.jobs, r, ids)
    ensures |states[k].claims| == |states[k].db.jobs| && HasPrefixShape(states[k].db.jobs, states[k].claims, ids)
  {
    EmptyIsSafe();
    RunsAreSafe(states, events, k);
    var s := states[k];
    var p := Frontier(s.db.jobs, ids);
    forall a | p < a < |ids| ensures s.db.jobs[ids[a]].status.Pending? && s.claims[ids[a]] == 0 {
      assert EarlierInRun(s.db.jobs, ids[p], ids[a]);
      assert Conserved(s.db.jobs[ids[a]], s.claims[ids[a]]);
    }
    if p < |ids| { assert Conserved(s.db.jobs[ids[p]], s.claims[ids[p]]); }
  }

  predicate HasPrefixShape(jobs: seq<Job>, claims: seq<nat>, ids: seq<nat>)
    requires |claims| == |jobs| && forall a :: 0 <= a < |ids| ==> ids[a] < |jobs|
  {
    var p := Frontier(jobs, ids);
    (forall a :: 0 <= a < p ==> Terminal(jobs[ids[a]].status)) &&
    (p < |ids| ==> jobs[ids[p]].status.Pending? || jobs[ids[p]].status.Running?) &&
    (forall a :: p < a < |ids| ==> jobs[ids[a]].status.Pending? && claims[ids[a]] == 0)
  }

  /** At most one attempt of one job executes in a run at any time. */
  lemma OneAttemptPerRun(states: seq<Sys>, events: seq<Event>, k: nat, v: nat, w: nat)
    requires IsSafeRun(states, events) && states[0] == EMPTY && k < |states|
    requires IsExecuting(states[k], v) && IsExecuting(states[k], w)
    requires var s := states[k];
      s.workers[v].job < |s.db.jobs| && s.workers[w].job < |s.db.jobs| &&
      s.db.jobs[s.workers[v].job].run == s.db.jobs[s.workers[w].job].run
    ensures v == w
  {
    EmptyIsSafe();
    RunsAreSafe(states, events, k);
    var jobs, i, j := states[k].db.jobs, states[k].workers[v].job, states[k].workers[w].job;
    assert EarlierInRun(jobs, i, j) || EarlierInRun(jobs, j, i) || i == j;
  }

  /** Within a run priority never matters: at most one of its jobs is claimable. */
  lemma OneClaimablePerRun(states: seq<Sys>, events: seq<Event>, k: nat, i: nat, j: nat)
    requires IsSafeRun(states, events) && states[0] == EMPTY && k < |states|
    requires Claimable(states[k].db.jobs, i) && Claimable(states[k].db.jobs, j)
    requires states[k].db.jobs[i].run == states[k].db.jobs[j].run
    ensures i == j
  {
    EmptyIsSafe();
    RunsAreSafe(states, events, k);
  }

  /** Once a run with jobs is success or failed it stays so, in every safe run. */
  lemma {:induction false} FinishedRunStays(states: seq<Sys>, events: seq<Event>, m: nat, k: nat, r: nat)
    requires IsSafeRun(states, events) && Safe(states[0]) && m <= k < |states|
    requires r < |states[m].db.runs| && Terminal(states[m].db.runs[r].status)
    ensures r < |states[k].db.runs| && states[k].db.runs[r].status == states[m].db.runs[r].status
    decreases k
  {
    if m < k {
      FinishedRunStays(states, events, m, k - 1, r);
      FinishedRunStepAt(states, events, k - 1, r);
    }
  }

  lemma FinishedRunStepAt(states: seq<Sys>, events: seq<Event>, k: nat, r: nat)
    requires IsSafeRun(states, events) && Safe(states[0]) && k < |events|
    requires r < |states[k].db.runs| && Terminal(states[k].db.runs[r].status)
    ensures r < |states[k + 1].db.runs| && states[k + 1].db.runs[r].status == states[k].db.runs[r].status
  {
    RunsAreSafe(states, events, k);
    assert SafeStepAt(states, events, k);
    FinishedRunStep(states[k], events[k], states[k + 1], r);
  }

  lemma FinishedRunStep(s: Sys, e: Event, s': Sys, r: nat)
    requires Safe(s) && SafeStep(s, e, s')
    requires r < |s.db.runs| && Terminal(s.db.runs[r].status)
    ensures r < |s'.db.runs| && s'.db.runs[r].status == s.db.runs[r].status
  {
    assert RunExact(s.db.jobs, r, s.db.runs[r]);
    assert r < |s'.db.runs| && RunExact(s'.db.jobs, r, s'.db.runs[r]) by { StepKeepsSafe(s, e, s'); }
    StepAdvances(s, e, s');
    FinishedRunGetsNoJobs(s, e, s', r);
    SameRunStatusesAgree(s.db.jobs, s'.db.jobs, r);
  }

  lemma FinishedRunGetsNoJobs(s: Sys, e: Event, s': Sys, r: nat)
    requires JobsOk(s) && Advances(s.db.jobs, s'.db.jobs) && SafeStep(s, e, s')
    requires HasJobs(s.db.jobs, r) && AllTerminal(s.db.jobs, r)
    ensures SameRunStatuses(s.db.jobs, s'.db.jobs, r)
  {
    var k :| 0 <= k < |s.db.jobs| && s.db.jobs[k].run == r;
    assert s.claims[k] > 0;
  }
}
