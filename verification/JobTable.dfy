/**
 The `jobs` and `pipeline_runs` tables, and each SQL statement on them as a function from the
 tables before the statement to the tables after it, trigger included.

 A row's id is its position, because rows are only ever appended. A time is a number of
 microseconds, the resolution of `timestamptz`.
 */
module JobTable {
  import opened Options

  type Time = int
  const SECOND: Time := 1_000_000

  datatype Status = Pending | Running | Success | Failed | Cancelled

  predicate Terminal(s: Status) {
    s.Success? || s.Failed? || s.Cancelled?
  }

  datatype Job = Job(
    run: nat,
    stage: string,
    stepName: string,
    command: string,
    priority: int,
    stageOrder: int,
    stepOrder: int,
    createdAt: Time,
    status: Status,
    retryCount: int,
    maxRetries: int,
    claimedBy: Option<string>,
    claimedAt: Option<Time>,
    heartbeatAt: Option<Time>,
    startedAt: Option<Time>,
    completedAt: Option<Time>,
    exitCode: Option<int>)

  datatype Run = Run(status: Status, startedAt: Option<Time>, completedAt: Option<Time>)

  datatype Db = Db(jobs: seq<Job>, runs: seq<Run>)

  const NEW_RUN: Run := Run(Pending, None, None)

  function NewJob(run: nat, stage: string, stepName: string, command: string, priority: int,
                  stageOrder: int, stepOrder: int, now: Time): Job
  {
    Job(run, stage, stepName, command, priority, stageOrder, stepOrder, now, Pending, 0, 3,
        None, None, None, None, None, None)
  }

  // ---------- Ordering and gating ----------

  /** The row comparison (stage_order, step_order) < (stage_order, step_order). */
  predicate Before(a: Job, b: Job) {
    a.stageOrder < b.stageOrder || (a.stageOrder == b.stageOrder && a.stepOrder < b.stepOrder)
  }

  /** Every earlier job of the same run is terminal. */
  predicate Gate(jobs: seq<Job>, i: nat)
    requires i < |jobs|
  {
    forall p :: 0 <= p < |jobs| && jobs[p].run == jobs[i].run && Before(jobs[p], jobs[i]) ==>
      Terminal(jobs[p].status)
  }

  predicate Claimable(jobs: seq<Job>, i: nat) {
    i < |jobs| && jobs[i].status.Pending? && Gate(jobs, i)
  }

  /** a may be returned before b: ORDER BY stage_order, step_order, priority DESC, created_at ASC. */
  predicate SortsFirst(a: Job, b: Job) {
    Before(a, b) ||
    (a.stageOrder == b.stageOrder && a.stepOrder == b.stepOrder &&
     (a.priority > b.priority || (a.priority == b.priority && a.createdAt <= b.createdAt)))
  }

  /** i is a row that the claim's SELECT may return when the rows in `locked` are skipped. */
  ghost predicate Selected(jobs: seq<Job>, locked: set<nat>, i: nat) {
    Claimable(jobs, i) && i !in locked &&
    forall k: nat :: Claimable(jobs, k) && k !in locked ==> SortsFirst(jobs[i], jobs[k])
  }

  // ---------- The trigger ----------

  predicate HasStatus(jobs: seq<Job>, r: nat, s: Status) {
    exists k :: 0 <= k < |jobs| && jobs[k].run == r && jobs[k].status == s
  }

  predicate AllTerminal(jobs: seq<Job>, r: nat) {
    forall k :: 0 <= k < |jobs| && jobs[k].run == r ==> Terminal(jobs[k].status)
  }

  predicate HasJobs(jobs: seq<Job>, r: nat) {
    exists k :: 0 <= k < |jobs| && jobs[k].run == r
  }

  function Outcome(jobs: seq<Job>, r: nat): Status {
    if HasStatus(jobs, r, Failed) then Failed else Success
  }

  function SyncedRun(jobs: seq<Job>, r: nat, run: Run, now: Time): Run {
    if HasStatus(jobs, r, Running) then
      if !run.status.Running? || run.startedAt.None?
      then run.(status := Running, startedAt := Some(run.startedAt.OrElse(now)))
      else run
    else if AllTerminal(jobs, r) then
      run.(status := Outcome(jobs, r), completedAt := Some(run.completedAt.OrElse(now)))
    else
      run
  }

  /** The trigger fired for a row of run r. */
  function Sync(db: Db, r: nat, now: Time): Db {
    if r < |db.runs| then db.(runs := db.runs[r := SyncedRun(db.jobs, r, db.runs[r], now)]) else db
  }

  // ---------- The statements ----------

  function Insert(db: Db, row: Job, now: Time): Db {
    Sync(db.(jobs := db.jobs + [row]), row.run, now)
  }

  function WriteStatus(db: Db, i: nat, row: Job, now: Time): Db
    requires i < |db.jobs|
  {
    Sync(db.(jobs := db.jobs[i := row]), row.run, now)
  }

  function ClaimedRow(j: Job, worker: string, now: Time): Job {
    j.(status := Running, claimedBy := Some(worker), claimedAt := Some(now), heartbeatAt := Some(now),
       startedAt := Some(now))
  }

  function Claim(db: Db, i: nat, worker: string, now: Time): Db
    requires i < |db.jobs|
  {
    WriteStatus(db, i, ClaimedRow(db.jobs[i], worker, now), now)
  }

  function BeatenRow(j: Job, now: Time): Job {
    j.(heartbeatAt := Some(now))
  }

  /** Does not write `status`, so the trigger does not fire. */
  function Heartbeat(db: Db, i: nat, now: Time): Db {
    if i < |db.jobs| then db.(jobs := db.jobs[i := BeatenRow(db.jobs[i], now)]) else db
  }

  function CompletedRow(j: Job, code: int, now: Time): Job {
    j.(status := Success, exitCode := Some(code), completedAt := Some(now))
  }

  function Completed(db: Db, i: nat, code: int, now: Time): Db {
    if i < |db.jobs| then WriteStatus(db, i, CompletedRow(db.jobs[i], code, now), now) else db
  }

  function FailedRow(j: Job, code: int): Job {
    j.(status := if j.retryCount + 1 >= j.maxRetries then Failed else Pending,
       retryCount := j.retryCount + 1, exitCode := Some(code), claimedBy := None, claimedAt := None)
  }

  function Failure(db: Db, i: nat, code: int, now: Time): Db {
    if i < |db.jobs| then WriteStatus(db, i, FailedRow(db.jobs[i], code), now) else db
  }

  predicate Stuck(j: Job, timeout: Time, now: Time) {
    j.status.Running? && j.heartbeatAt.Some? && j.heartbeatAt.value < now - timeout &&
    j.retryCount < j.maxRetries
  }

  function ReclaimedRow(j: Job, timeout: Time, now: Time): Job {
    if Stuck(j, timeout, now)
    then j.(status := Pending, claimedBy := None, claimedAt := None, retryCount := j.retryCount + 1)
    else j
  }

  function ReclaimedRows(jobs: seq<Job>, timeout: Time, now: Time): (r: seq<Job>) {
    seq(|jobs|, k requires 0 <= k < |jobs| => ReclaimedRow(jobs[k], timeout, now))
  }

  predicate RunHasStuck(jobs: seq<Job>, r: nat, timeout: Time, now: Time) {
    exists k :: 0 <= k < |jobs| && jobs[k].run == r && Stuck(jobs[k], timeout, now)
  }

  /** All stuck rows change first; then the trigger fires for each of them on the changed table. */
  function Reclaim(db: Db, timeout: Time, now: Time): Db {
    var jobs := ReclaimedRows(db.jobs, timeout, now);
    Db(jobs, seq(|db.runs|, r requires 0 <= r < |db.runs| =>
      if RunHasStuck(db.jobs, r, timeout, now) then SyncedRun(jobs, r, db.runs[r], now) else db.runs[r]))
  }
}
