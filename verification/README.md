# Verified model of a CI/CD orchestrator on PostgreSQL

The orchestrator runs pipelines as rows of a `jobs` table that any number of workers claim, execute
and report. This project models that queue, the trigger that keeps each run's status, the heartbeat
failure detector, the deploy lock, the webhook outbox and the log line splitter, and proves what
they guarantee together.

`dafny verify dfyconfig.toml` checks everything.

## How it is built

| file | content |
|---|---|
| `JobTable.dfy` | the two tables, and every SQL statement (trigger included) as a function on them |
| `JobStore.dfy`, `TriggerRun.dfy` | the queue service, the trigger and `triggerRun`, updating the tables in place |
| `Workers.dfy`, `Attempts.dfy` | any interleaving of any number of workers, with nothing assumed about who reports |
| `ServiceSteps.dfy` | each event of that layer is one call of the queue service |
| `SafeRuns.dfy`, `Progress.dfy` | the invariant under A1 and A2, and when the queue can move |
| `Timed.dfy` | A2 derived from heartbeat timing; recovery of a dead worker's job |
| `Overtaking.dfy` | what happens without A2, and exactly when |
| `ConcurrentClaims.dfy` | overlapping claims that read old snapshots, lock a row and commit later |
| `History.dfy`, `Interpreter.dfy` | every run's attempts in order; refinement to a sequential interpreter |
| `ConfigRuns.dfy`, `Completion.dfy` | a run from its config to its end; when all work is done |
| `WorkerLoop.dfy` | the worker loop |
| `DeployLock.dfy`, `LockLeaks.dfy` | advisory locks over pooled sessions, and the locks that leak |
| `DeployExecution.dfy` | `execute` around the lock, with others acting at every await |
| `Outbox.dfy`, `OutboxDrain.dfy` | the webhook outbox, its backoff and the drain loop |
| `LineBuffer.dfy` | streaming and batch line splitting |

A row's id is its position in its table. A time is a number of microseconds.

## Assumptions

- A1: jobs enter a run before any of its jobs is claimed. `triggerRun` sends its INSERTs
  concurrently, so a claim that slips between them is outside the safe layer.
- A2: a reclaim never takes a job from a live worker. `Timed.TimedRunsAreSafe` derives it from the
  heartbeats; `markCompleted` and `markFailed` match on the id alone, so it is needed.
- A3: a claim returns the updated row or null.
- A4: the session of a deploy lock lives while its deploy runs, and a crash ends the command.
- A5: `max_retries` is at least 1.
- Where runs are compared with the sequential interpreter, what becomes of an attempt is a function of
  the job and the number of its attempt: an exit code, or no report, because the worker died, or the
  reply of its claim or the report was lost. That function also fixes when a deploy finds its lock busy.

`Workers`, `Attempts`, `Outbox`, `DeployLock`, `LockLeaks`, the recovery half of `Timed` and the
results of `Overtaking` on finished jobs and runs use neither A1 nor A2.

## Findings

- A job can be tried `max_retries + 1` times: a reclaim may spend the last retry and still return
  the job to the queue. It happens exactly when the job is then claimed again
  (`Progress.AttemptsWithinLimitIff`), and no other step reaches the limit without failing the job
  (`Progress.LimitReachedUnfailedIff`).
- Under A1 and A2 a failed job never gets a `completed_at`, and a successful one keeps its `claimed_by`
  (`SafeRuns.AttemptsAreConserved`).
- A job whose worker is gone while `retry_count = max_retries` stays running for ever, and so does its
  run, because `retry_count < max_retries` excludes it from every reclaim
  (`Timed.StrandedJobStays`). A dead worker's job recovers exactly if it has a retry left
  (`Timed.RecoversIffRetryLeft`).
- Under A1, a reclaim that takes a job from a live worker is the only thing that breaks the invariant
  (`Overtaking.RunIsSafeIffA2`). After it, reports contradict finished jobs, since they match on the id
  alone: success becomes pending or failed, and failed becomes success
  (`Overtaking.TerminalStatusChangesIff`). A finished run can turn to the opposite outcome, or keep its
  status while a job of it is pending again and return to running at the next claim
  (`Overtaking.FinishedRunChangesIff`). Chains from any safe state in which a worker falls silent on the
  last open job of its run reach each of these, depending on the retries left
  (`Overtaking.LateFailureUndoesSuccess`, `Overtaking.LateSuccessUndoesFailure`).
- Advisory locks leak into the pool, because the error paths give the connection back without
  unlocking: a lock query that takes effect and throws, a failed upsert or delete, an unlock that
  throws without effect. These are the only ways, and a leaked lock lasts exactly as long as its
  session (`LockLeaks.LeakFreeIff`); meanwhile other sessions are refused although no deploy runs
  (`LockLeaks.LeakRefusesOthers`). Mutual exclusion still holds.
- A deploy whose command exits 0 but whose `release()` throws is reported as failed with exit code 1, and
  so is one whose "lock busy" log throws instead of giving 75 (`DeployExecution.Locks.Execute`,
  `WorkerLoop.TakeTurn`). A busy deploy lock uses
  up one of the job's retries like any failure.
- A webhook that was accepted and marked is sent again, with its `processed_at` set, if the marking's
  reply is lost: the error path marks it failed. Nothing else unmarks it (`Outbox.ProcessedStaysIff`,
  `Outbox.AcceptedIsSentAgain`).
- The comment on `reclaimStuckJobs` says a heartbeat that "continues to beat outside" the window
  marks a dead job; the code reclaims a job whose last heartbeat is older than the timeout.

## Model

| member | source | states |
|---|---|---|
| `JobStore.Store.FireTrigger` | src/database/database-seed.service.ts:46-82 | the PL/pgSQL body, branch by branch: a running job makes the run running, a pending one leaves it, else it gets its outcome; the first start and the first end are stamped once and kept; no other run changes |
| `JobStore.Store.InsertNewJob` | src/queue/job-queue.service.ts:9-27 | appends a pending row with the given columns, no retries and limit 3, and fires the trigger; refuses a row of an unknown run |
| `JobStore.Store.SelectClaimable` | src/queue/job-queue.service.ts:42-55 | the row returned is pending, unlocked and behind no open job of its run, and among all such rows first by stage, then step, then higher priority, then age; none is returned exactly when every unlocked pending row is behind an open job |
| `JobStore.Store.ClaimNextJob` | src/queue/job-queue.service.ts:33-64 | that same row gets exactly the claim's five columns for the worker and its run is synchronised, or nothing changes |
| `JobStore.Store.UpdateHeartbeat` | src/queue/job-queue.service.ts:76-78 | sets one row's heartbeat to now and nothing else; no trigger fires |
| `JobStore.Store.MarkCompleted` | src/queue/job-queue.service.ts:81-92 | success, exit code and completion time by id alone, whatever the row's status, then the trigger |
| `JobStore.Store.MarkFailed` | src/queue/job-queue.service.ts:94-110 | one retry more, failed at the limit and pending below it, exit code set and claimant cleared, by id alone, then the trigger |
| `JobStore.Store.ReclaimStuckJobs` | src/queue/job-queue.service.ts:119-133 | the two loops, over rows and over row triggers, return exactly the running rows with a retry left and a heartbeat older than the timeout, each for one retry, and synchronise exactly their runs |
| `ServiceSteps.Act` | src/queue/job-queue.service.ts:9-133 | every event of the many-worker layer that touches the tables is one call of the service, with the same tables after it |
| `ServiceSteps.WorkersMayAct` | src/worker/worker.service.ts:45-67 | a live worker may beat, report any result, lose its report or die whatever the tables hold, and an idle one may claim any claimable row |
| `TriggerRun.TriggerPipelineRun` | src/api/runs/runs.service.ts:57-97 | a missing pipeline changes nothing; otherwise a new pending run and, for each step whose INSERT succeeds, in whatever order and at whatever time it arrives, a row with the stage's name, the step's name, command and own priority or 5, and its stage and step numbers; the run stays pending; the call returns exactly if all succeed |
| `TriggerRun.ConfigIsInOrder` | src/api/runs/runs.service.ts:78-92 | the requests are strictly increasing in (stage_order, step_order) |
| `TriggerRun.StepRequestAt` | src/api/runs/runs.service.ts:78-92 | step y of stage x has its request right after those of all steps before it, with its stage's name, its own name, command, priority or 5, and numbers, and there are no further ones |
| `TriggerRun.PlacesListRun` | src/api/runs/runs.service.ts:78-93 | in whatever order the rows arrived and got their ids, the ids taken in document order list the run's jobs in claim order |
| `TriggerRun.BatchIsSafeRun` | src/api/runs/runs.service.ts:75-94 | inserting such rows into a run without jobs, in any order, is a safe run of the multi-worker layer |
| `Workers.RunsAlwaysInStep` | src/database/database-seed.service.ts:54-78 | in every interleaving, stale reports, late inserts and multi-row reclaims included, a run with a running job is running, and a run whose jobs are all terminal has their outcome |
| `Attempts.AttemptsAreBounded` | src/queue/job-queue.service.ts:98-102 | in every interleaving a pending or running job is within its retry limit and no job is claimed more than max_retries + 1 times |
| `Attempts.WorkIsFinite` | src/queue/job-queue.service.ts:119-132 | without new jobs, every claim, report and effective reclaim uses up a measure of the state, so only finitely many happen |
| `Attempts.FreshJobsAllowTwelveStepsEach` | src/queue/job-queue.service.ts:22 | n new jobs with limit 3 allow at most 12 n such steps |
| `SafeRuns.StepKeepsSafe` | src/queue/job-queue.service.ts:33-133 | every step under A1 and A2 keeps conservation, ownership, order and exact run statuses |
| `SafeRuns.RunsAreSafe` | src/queue/job-queue.service.ts:33-133 | hence every reachable state has them |
| `SafeRuns.AttemptsAreConserved` | src/queue/job-queue.service.ts:94-132 | claims equal retries plus one while running or after success; a failed job stopped at max_retries or one later; only success has a completion time, only running and successful jobs a claimant |
| `SafeRuns.RunStatusIsExact` | src/database/database-seed.service.ts:45-90 | the status kept incrementally is always the pure function of the run's jobs: outcome, running once started, pending before |
| `SafeRuns.FinishedRunStays` | src/database/database-seed.service.ts:73-78 | a finished run never changes status again |
| `SafeRuns.PrefixShape` | src/queue/job-queue.service.ts:42-54 | a run's jobs in order are terminal ones, at most one open one that may have been tried, then pending ones never claimed |
| `SafeRuns.OneAttemptPerRun` | src/queue/job-queue.service.ts:42-54 | two workers never execute jobs of one run at a time |
| `SafeRuns.OneClaimablePerRun` | src/queue/job-queue.service.ts:52 | within a run at most one job is claimable, so priority never matters there |
| `SafeRuns.RunsAdvance` | src/queue/job-queue.service.ts:94-132 | rows keep their place in the order and terminal statuses never change, from any earlier state to any later one |
| `Progress.WaitingRunHasClaimableJob` | src/queue/job-queue.service.ts:45-51 | an unfinished run whose open jobs are all pending has a claimable one |
| `Progress.QuiescentIffStranded` | src/queue/job-queue.service.ts:127-129 | with all heartbeats expired, nothing is claimable or reclaimable exactly when each open job is running at its retry limit or pending behind such a job of its run |
| `Progress.BoundIsMet` | src/queue/job-queue.service.ts:119-132 | the bound of max_retries + 1 attempts is reached whenever a reclaim spends a job's last retry and the job is claimed and fails once more |
| `Progress.LimitReachedUnfailedIff` | src/queue/job-queue.service.ts:98-129 | a safe step takes a job to its retry limit without failing it if and only if it is a reclaim that finds it stuck with one retry left |
| `Progress.AttemptsWithinLimitIff` | src/queue/job-queue.service.ts:98-129 | at any time in any safe run a job has had at most max_retries attempts if and only if no such reclaim was followed by another claim of it |
| `ConcurrentClaims.OneWritableRowPerRun` | src/queue/job-queue.service.ts:42-55 | two enabled statements that change jobs of one run contend for the same row |
| `ConcurrentClaims.RunFrozenWhileRowOpen` | src/queue/job-queue.service.ts:46-51 | while a run's first open job stays open no other job of the run changes status |
| `ConcurrentClaims.TriggerCountsAreExact` | src/database/database-seed.service.ts:54-71 | the trigger computes the same run row whether it reads the other jobs as of the row lock or as of the commit |
| `ConcurrentClaims.ClaimsAreAtomic` | src/queue/job-queue.service.ts:42-55 | every interleaving of claims that gate on an old snapshot, skip locked rows and commit later is, step by step, one of atomic claims of claimable jobs |
| `ConcurrentClaims.OverlappingClaimsAreDistinct` | src/queue/job-queue.service.ts:53-54 | overlapping claims hold pairwise distinct jobs, none of them being executed |
| `ConcurrentClaims.ClaimsOverlap` | src/queue/job-queue.service.ts:53-54 | two workers do hold two rows at once, the second selected from a snapshot older than the first lock |
| `Timed.TimedRunsAreSafe` | src/worker/job-executor.service.ts:94-96 | if each worker's beats (claim, heartbeats) are followed by its next act within 30 s, no reclaim touches a live worker's job: the timed run is a safe run |
| `Timed.TickingJobIsLeftAlone` | src/worker/job-executor.service.ts:94-96 | workers that beat every 10 s, each beat up to 20 s late, keep their rows untouched by every reclaim |
| `Timed.ReclaimEdge` | src/worker/heartbeat.service.ts:4 | a reclaim changes a row exactly if it is running with a retry left and its heartbeat is older than 30 s |
| `Timed.AbandonedJobRecovers` | src/worker/heartbeat.service.ts:42-52 | a dead worker's job with a retry left and last heartbeat h is pending right after the first reclaim later than h + 30 s, by h + 45 s with reclaims every 15 s, in every interleaving and whenever the worker died |
| `Timed.StrandedJobStays` | src/queue/job-queue.service.ts:119-132 | a running job with its retries used up and no worker stays so, and its run running, at every later state of every interleaving |
| `Timed.RecoversIffRetryLeft` | src/queue/job-queue.service.ts:119-132 | with reclaims every 15 s a dead worker's job ever leaves running if and only if it had a retry left |
| `Overtaking.StepIsSafeIffA2` | src/queue/job-queue.service.ts:119-132 | from a safe state a step with A1 keeps the whole invariant if and only if it is not a reclaim of a live worker's job |
| `Overtaking.RunIsSafeIffA2` | src/queue/job-queue.service.ts:119-132 | in any run with A1 all states so far are safe if and only if every reclaim so far spared live workers |
| `Overtaking.SilentWorkerIsOvertaken` | src/queue/job-queue.service.ts:119-132 | from any safe state, a worker silent past the timeout with a retry left can be joined by a second worker on its job |
| `Overtaking.TerminalJobReopensIff` | src/queue/job-queue.service.ts:94-110 | in every reachable state of every interleaving a step reopens a terminal job if and only if it is a failure report for a successful job below the retry limit |
| `Overtaking.TerminalStatusChangesIff` | src/queue/job-queue.service.ts:81-110 | likewise a terminal status changes if and only if success is reported for a failed job, which becomes success, or failure for a successful one, which becomes pending or, with no retry left, failed |
| `Overtaking.FinishedJobStaysIff` | src/queue/job-queue.service.ts:81-110 | hence over any stretch of any run a finished job keeps its status if and only if no such report comes |
| `Overtaking.ReopenedJobLeavesRunFinished` | src/database/database-seed.service.ts:73-80 | a report that reopens a job of a finished run leaves the run with a status its jobs no longer have |
| `Overtaking.FinishedRunChangesIff` | src/database/database-seed.service.ts:54-80 | in every interleaving a run with a terminal status changes status if and only if one of its jobs is claimed, or a report completes the run, all other jobs being terminal, with another outcome than it had |
| `Overtaking.FinishedRunStaysIff` | src/database/database-seed.service.ts:54-80 | hence over any stretch of any run a finished run keeps its status if and only if no such event happens |
| `Overtaking.LateFailureUndoesSuccess` | src/queue/job-queue.service.ts:81-132 | from any safe state with a worker silent past the timeout: reclaim, second claim, success and then the late failure leave the job failed at the limit and its finished run turned to failed, or else the job pending and its run finished with success until the next claim makes it running again |
| `Overtaking.LateSuccessUndoesFailure` | src/queue/job-queue.service.ts:81-132 | likewise the second worker's final failure and then the late success turn job and run from failed to success |
| `Interpreter.ScheduleIndependence` | src/worker/worker.service.ts:45-67 | any interleaving, with crashes, lost reports and reclaims, has made in each run a prefix of the sequential interpreter's attempts, and when the run is finished or can never be, exactly its attempts, job statuses, exit codes and run status |
| `Interpreter.Confluence` | src/worker/worker.service.ts:45-67 | two interleavings in which the attempts come to the same and that settle a run agree on its history and all statuses and exit codes |
| `Interpreter.FirstSuccessOrMaxFailures` | src/queue/job-queue.service.ts:94-110 | if no report is lost the interpreter tries a job until it first exits 0 or has failed max_retries times |
| `ConfigRuns.TriggeredRunFollowsConfig` | src/api/runs/runs.service.ts:57-97 | in any run whose inserts for r are a config's requests, in any order, among any other statements, and some perhaps missing, r's attempts are a prefix of executing the inserted steps in document order with limit 3, and when r is finished or can never be, exactly that execution with its outcome |
| `Completion.WorkIsLeftIffUnsettled` | src/queue/job-queue.service.ts:33-133 | with an idle worker and all heartbeats expired, some claim, report or effective reclaim can happen if and only if some run is not settled |
| `Completion.WorkEndsInAgreement` | src/worker/worker.service.ts:45-67 | for any number of workers: without new jobs the remaining work is bounded by the measure, and when none is left every run's attempts, statuses, codes and outcome are the interpreter's |
| `WorkerLoop.TakeTurn` | src/worker/worker.service.ts:52-66 | one turn claims the first claimable job, executes it and reports it exactly once: success for exit code 0, else one retry more with that exit code, 1 if the execution threw, failed or pending by the limit; the row stays claimed if the claim's reply or the report is lost; no other row changes |
| `WorkerLoop.RunLoop` | src/worker/worker.service.ts:45-79 | alone on the queue and not stopped, with reclaims between turns and queries that throw, the loop makes at most half the measure in claims, one each round but those whose claim throws; every job then ended as the interpreter ends it or waits for a lost attempt, and all are terminal if every claim's reply and every report arrives |
| `WorkerLoop.NothingClaimableMeansEnded` | src/queue/job-queue.service.ts:45-51 | with no attempt under way and nothing claimable every job has ended as the interpreter ends it or waits, itself or behind an earlier job of its run, for an attempt whose report was lost |
| `DeployLock.StepKeepsLocksSafe` | src/locks/deployment-lock.service.ts:48-91 | each await of acquire, upsert, delete and unlock, failures and crashes included, keeps connections, locks and audit rows consistent; every lock is held by an open session and every connection in use by a call |
| `DeployLock.OneDeployPerEnvironment` | src/locks/deployment-lock.service.ts:48-91 | at most one deploy command per environment executes in any reachable state, for every hash function, with re-entrant sessions reused through the pool |
| `DeployLock.AuditRowNamesHolder` | src/locks/deployment-lock.service.ts:65-75 | a row names the run that holds the lock, or was left by a crashed call, or, only after a query error, by a failed one |
| `DeployLock.ReleaseDeletesOwnRow` | src/locks/deployment-lock.service.ts:77-84 | a release whose delete takes effect, returned or thrown, deletes the row its own call wrote or a left-over one, never that of a later holder |
| `LockLeaks.StepLeaksIff` | src/locks/deployment-lock.service.ts:53-90 | a step from leak-free locks leaks one if and only if it is a lock query that takes effect and throws, a failing upsert or delete, or an unlock that throws without effect |
| `LockLeaks.LeakFreeIff` | src/locks/deployment-lock.service.ts:53-90 | at any time in any run every lock is held once, by a call that owns it, if and only if the session of each leaking query error so far has ended |
| `LockLeaks.LeakRefusesOthers` | src/locks/deployment-lock.service.ts:54-63 | while that session lives, at any later time, no call owns the key over another session and every attempt over one is refused |
| `LockLeaks.RefusedIffOwned` | src/locks/deployment-lock.service.ts:48-63 | without leaks an attempt is refused if and only if some call owns the lock of an environment whose prefixed name hashes alike, and is granted otherwise |
| `LockLeaks.LockAndUnlock` | src/locks/deployment-lock.service.ts:54-84 | the lock is granted when free or held by the same session, which counts it, and the unlock gives up one count |
| `DeployExecution.Locks.Execute` | src/worker/job-executor.service.ts:77-138 | with others acting at every await, each exit leaves every connection in use to another call; busy gives 75 without running unless its log throws; the command starts only with the lock of its own environment held and its audit row written; its code is returned exactly if both queries of the release succeed; something is thrown exactly if a query of the call or an awaited log fails |
| `DeployExecution.Locks.TryAcquire` | src/locks/deployment-lock.service.ts:48-91 | true exactly when the call ends up holding the lock; otherwise refused or thrown |
| `DeployExecution.Locks.Release` | src/locks/deployment-lock.service.ts:77-84 | returns normally exactly if both the delete and the unlock do |
| `Outbox.OneSenderPerNotification` | src/queue/webhook-queue.service.ts:45-62 | no notification is in flight from two workers |
| `Outbox.PostsAreBounded` | src/queue/webhook-queue.service.ts:76-90 | a notification gets at most max(1, max_retries) POST attempts |
| `Outbox.BackoffIsRespected` | src/queue/webhook-queue.service.ts:82-85 | attempt n + 1 starts no earlier than enqueue time plus 2^(n+1) - 2 seconds |
| `Outbox.ProcessedStaysIff` | src/queue/webhook-queue.service.ts:100-117 | over any stretch of any run a processed notification stays so, and is not sent again, if and only if no worker that marked it and lost the reply marks it failed |
| `Outbox.AcceptedIsSentAgain` | src/queue/webhook-queue.service.ts:100-117 | that happens to any due notification with a retry left, which then waits again with its processed_at set |
| `OutboxDrain.Store.ClaimNextWebhook` | src/queue/webhook-queue.service.ts:45-62 | claims the waiting, due, unlocked row with the earliest retry time and changes nothing but its status, or none exactly when no unlocked row is due |
| `OutboxDrain.Store.MarkWebhookFailed` | src/queue/webhook-queue.service.ts:76-90 | counts the failure and gives up at the limit or waits exactly 2^(n+1) seconds more |
| `OutboxDrain.Store.ProcessOneWebhook` | src/queue/webhook-queue.service.ts:96-118 | sends the first due row while others act; accepted gives processed with its time, rejected one retry more and given up at the limit or waiting with its backoff, and so does a marking whose reply is lost; uses up a claim; false means nothing unlocked was due |
| `OutboxDrain.AnswerIsSteps` | src/queue/webhook-queue.service.ts:96-118 | each answer amounts to the steps of the many-sender layer |
| `OutboxDrain.SendersInterfere` | src/queue/webhook-queue.service.ts:45-90 | whatever another sender does to a row that is not ours is among the interference |
| `OutboxDrain.InterferenceAddsNoClaims` | src/queue/webhook-queue.service.ts:45-90 | whatever other workers do without enqueueing, the claims left never grow and our row is untouched |
| `OutboxDrain.Store.Drain` | src/worker/worker.service.ts:69-73 | the do-while ends within the claims left plus one calls, under any responses and interference, and unless aborted only when no unlocked row is due |
| `LineBuffer.SplitCarriesOver` | src/worker/job-executor.service.ts:18-20 | a text may be split anywhere, even between CR and LF, if the last part is carried over |
| `LineBuffer.StreamingEqualsBatch` | src/worker/job-executor.service.ts:14-30 | for every chunking, writes and a flush emit the split of the whole text without an empty last part, and a second flush emits nothing |
| `LineBuffer.StreamIsSplitSoFar` | src/worker/job-executor.service.ts:15-24 | after any chunks the emitted lines and the buffer are the split so far, and the buffer holds no newline |
| `LineBuffer.ReadingIsSplit` | src/worker/job-executor.service.ts:19 | the split is the only way to read a text as newline-free parts ended by LF or CR LF |
| `LineBuffer.Buffer.Write` | src/worker/job-executor.service.ts:15-25 | emits the completed lines and keeps the partial one |
| `LineBuffer.Buffer.Flush` | src/worker/job-executor.service.ts:26-30 | emits a non-empty rest and empties the buffer |
| `LineBuffer.LogOutput` | src/worker/job-executor.service.ts:106-122 | a command's chunks followed by close are logged as the batch lines |

## Left out

- HTTP controllers, wiring, process spawning, log streaming, `LISTEN/NOTIFY`, dashboards and seed data: no protocol of their own; exit codes and responses are parameters.
- The result shape of the database driver and the re-keying of raw rows: decided by a library.
- The deploy environment guessed from a command: an arbitrary string here.
- Inserts of one run that interleave with its claims: outside the safe layer by A1; the unconditional results cover them.
- The `cancelled` status as a transition: it is terminal here, but nothing in the code sets it.
- A notification whose worker dies in mid-POST stays `processing` for ever; no liveness is claimed for it.
- A POST that succeeds but cannot be marked is sent again; the bound on attempts covers it, single delivery does not hold.
- Overflow of 32-bit counters and of `power(2, n)` in double precision.
- TriggerRun.TriggerPipelineRun: runs in one piece; statements of others between its INSERTs are covered by ConfigRuns.TriggeredRunFollowsConfig, which starts from empty tables and allows any under A1.
- JobStore.Store.ClaimNextJob: runs to its end in one piece; overlapping claims are in ConcurrentClaims.
- WorkerLoop.RunLoop: the loop up to its first empty claim; the drain that follows is OutboxDrain.Store.Drain. The sleep is left out, and finitely many claims throw without effect.
- DeployLock.OneDeployPerEnvironment: the lock service is modelled as steps on a value, because each of its awaits interleaves with other calls; DeployExecution gives the calls their imperative form.
- Starting and stopping the reclaim timer: reclaims happen at any times in Timed, and at least every 15 s only where that is assumed.
