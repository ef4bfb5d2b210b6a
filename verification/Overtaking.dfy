/** What goes wrong without A2, and exactly when. */
module Overtaking {
  import opened JobTable
  import opened Workers
  import opened Attempts
  import opened SafeRuns
  import opened Progress

  /**
   A worker that stays silent past the timeout is overtaken: in any safe state, a late reclaim
   and one claim by an idle worker put two workers on the same job.
   */
  lemma SilentWorkerIsOvertaken(s: Sys, w: nat, v: nat, now: Time, name: string) returns (s1: Sys, s2: Sys)
    requires Safe(s) && IsExecuting(s, w) && v < |s.workers| && s.workers[v].Idle?
    requires s.db.jobs[s.workers[w].job].heartbeatAt.value < now - 30 * SECOND
    requires s.db.jobs[s.workers[w].job].retryCount < s.db.jobs[s.workers[w].job].maxRetries
    ensures Step(s, Event(ReclaimStuck, now), s1)
    ensures Step(s1, Event(ClaimJob(v, s.workers[w].job, name), now), s2)
    ensures IsExecuting(s2, w) && IsExecuting(s2, v) && s2.workers[v].job == s2.workers[w].job
  {
    var i := s.workers[w].job;
    s1 := Apply(s, Event(ReclaimStuck, now));
    ReclaimedIsClaimable(s, i, now);
    s2 := AfterClaim(s1, v, i, name, now);
  }

  // ---------- The invariant without A2 ----------

  /** From a safe state, a step with A1 leads to an unsafe one exactly if it is a reclaim that breaks A2. */
  lemma StepIsSafeIffA2(s: Sys, e: Event, s': Sys)
    requires Safe(s) && Step(s, e, s') && A1(s, e)
    ensures Safe(s') <==> A2(s, e)
  {
    if A2(s, e) {
      StepKeepsSafe(s, e, s');
    } else {
      var w :| 0 <= w < |s.workers| && s.workers[w].Executing? && s.workers[w].job < |s.db.jobs| &&
        Stuck(s.db.jobs[s.workers[w].job], TIMEOUT, e.now);
      assert s'.workers[w].Executing? && !s'.db.jobs[s'.workers[w].job].status.Running?;
    }
  }

  ghost predicate SafeUpTo(states: seq<Sys>, k: nat) {
    k < |states| && forall n: nat :: n <= k ==> Safe(states[n])
  }

  ghost predicate A2UpTo(states: seq<Sys>, events: seq<Event>, k: nat)
    requires k <= |events| < |states|
  {
    forall n: nat :: n < k ==> A2(states[n], events[n])
  }

  /** In every run with A1, all states so far are safe if and only if every reclaim so far spared live workers. */
  lemma {:induction false} RunIsSafeIffA2(states: seq<Sys>, events: seq<Event>, k: nat)
    requires IsA1Run(states, events) && Safe(states[0]) && k < |states|
    ensures SafeUpTo(states, k) <==> A2UpTo(states, events, k)
  {
    if k > 0 {
      RunIsSafeIffA2(states, events, k - 1);
      assert A1StepAt(states, events, k - 1);
      if SafeUpTo(states, k - 1) { StepIsSafeIffA2(states[k - 1], events[k - 1], states[k]); }
      assert SafeUpTo(states, k) <==> SafeUpTo(states, k - 1) && Safe(states[k]);
      assert A2UpTo(states, events, k) <==> A2UpTo(states, events, k - 1) && A2(states[k - 1], events[k - 1]);
    }
  }

  // ---------- Finished jobs ----------

  predicate ReportsJob(s: Sys, w: nat, i: nat) {
    IsExecuting(s, w) && s.workers[w].job == i && i < |s.db.jobs|
  }

  /** A report of a worker that was overtaken contradicts the terminal status the job has by now. */
  predicate Overturns(s: Sys, e: Event, i: nat) {
    match e.action
    case Succeed(w) => ReportsJob(s, w, i) && !s.db.jobs[i].status.Success?
    case Fail(w, _) => ReportsJob(s, w, i) && !s.db.jobs[i].status.Failed?
    case _ => false
  }

  /**
   In every interleaving, a terminal status changes by such a report and by nothing else: success
   becomes pending, or failed if no retry is left, and failed becomes success.
   */
  lemma TerminalStatusChangesIff(s: Sys, e: Event, s': Sys, i: nat)
    requires AllAttemptsOk(s) && Step(s, e, s') && i < |s.db.jobs| && Terminal(s.db.jobs[i].status)
    ensures i < |s'.db.jobs|
    ensures s'.db.jobs[i].status != s.db.jobs[i].status <==> Overturns(s, e, i)
    ensures Overturns(s, e, i) && s.db.jobs[i].status.Failed? ==> s'.db.jobs[i].status.Success?
    ensures Overturns(s, e, i) && s.db.jobs[i].status.Success? ==>
      s'.db.jobs[i].status == if s.db.jobs[i].retryCount + 1 < s.db.jobs[i].maxRetries then Pending else Failed
  {
    assert AttemptsOk(s.db.jobs[i], s.claims[i]);
    match e.action {
      case ClaimJob(_, _, _) =>
      case Succeed(_) =>
      case Fail(_, _) =>
      case ReclaimStuck =>
      case InsertJob(_) =>
      case _ =>
    }
  }

  /** So a job reopens exactly if it succeeded with a retry left and is then reported failed. */
  lemma TerminalJobReopensIff(s: Sys, e: Event, s': Sys, i: nat)
    requires AllAttemptsOk(s) && Step(s, e, s') && i < |s.db.jobs| && Terminal(s.db.jobs[i].status)
    ensures i < |s'.db.jobs|
    ensures !Terminal(s'.db.jobs[i].status) <==>
      e.action.Fail? && ReportsJob(s, e.action.worker, i) && s.db.jobs[i].status.Success? &&
      s.db.jobs[i].retryCount + 1 < s.db.jobs[i].maxRetries
  {
    TerminalStatusChangesIff(s, e, s', i);
    assert AttemptsOk(s.db.jobs[i], s.claims[i]);
  }

  predicate JobHas(states: seq<Sys>, n: nat, i: nat, status: Status) {
    n < |states| && i < |states[n].db.jobs| && states[n].db.jobs[i].status == status
  }

  ghost predicate JobKeeps(states: seq<Sys>, m: nat, k: nat, i: nat, status: Status) {
    forall n: nat :: m <= n <= k ==> JobHas(states, n, i, status)
  }

  ghost predicate NeverOverturned(states: seq<Sys>, events: seq<Event>, m: nat, k: nat, i: nat)
    requires k <= |events| < |states|
  {
    forall n: nat :: m <= n < k ==> !Overturns(states[n], events[n], i)
  }

  /** In every run, a finished job keeps its status as long as, and only as long as, no report overturns it. */
  lemma {:induction false} FinishedJobStaysIff(states: seq<Sys>, events: seq<Event>, m: nat, k: nat, i: nat,
                                               status: Status)
    requires IsRun(states, events) && states[0] == EMPTY && m <= k < |states|
    requires JobHas(states, m, i, status) && Terminal(status)
    ensures JobKeeps(states, m, k, i, status) <==> NeverOverturned(states, events, m, k, i)
    decreases k
  {
    if m < k {
      FinishedJobStaysIff(states, events, m, k - 1, i, status);
      assert StepAt(states, events, k - 1);
      AttemptsAreBounded(states, events, k - 1);
      if JobHas(states, k - 1, i, status) {
        TerminalStatusChangesIff(states[k - 1], events[k - 1], states[k], i);
      }
      assert JobKeeps(states, m, k, i, status) <==>
        JobKeeps(states, m, k - 1, i, status) && JobHas(states, k, i, status);
      assert NeverOverturned(states, events, m, k, i) <==>
        NeverOverturned(states, events, m, k - 1, i) && !Overturns(states[k - 1], events[k - 1], i);
    }
  }

  // ---------- Finished runs ----------

  /** A report that reopens a job leaves a finished run's status as it was. */
  lemma ReopenedJobLeavesRunFinished(s: Sys, e: Event, s': Sys, i: nat)
    requires Shape(s) && RunsInStep(s.db) && Step(s, e, s') && i < |s.db.jobs|
    requires AllTerminal(s.db.jobs, s.db.jobs[i].run) && !Terminal(s'.db.jobs[i].status)
    ensures Terminal(s'.db.runs[s.db.jobs[i].run].status) && s'.db.jobs[i].status.Pending?
    ensures s'.db.runs[s.db.jobs[i].run].status != RunStatusOf(s'.db.jobs, s.db.jobs[i].run)
  {
    assert e.action.Fail?;
    var r := s.db.jobs[i].run;
    assert RunInStep(s.db, r) && HasJobs(s.db.jobs, r);
    assert !HasStatus(s'.db.jobs, r, Running);
    assert s'.db.runs[r] == s.db.runs[r];
  }

  /** Every job of run r but i is terminal. */
  predicate OthersTerminal(jobs: seq<Job>, r: nat, i: nat) {
    forall p :: 0 <= p < |jobs| && p != i && jobs[p].run == r ==> Terminal(jobs[p].status)
  }

  predicate OtherFailed(jobs: seq<Job>, r: nat, i: nat) {
    exists p :: 0 <= p < |jobs| && p != i && jobs[p].run == r && jobs[p].status.Failed?
  }

  /**
   The event takes run r, finished by its status, to another status: a claim of a job of it that was
   reopened, or a report that completes the run anew with the other outcome.
   */
  predicate ChangesRun(s: Sys, e: Event, r: nat)
    requires r < |s.db.runs|
  {
    match e.action
    case ClaimJob(_, i, _) => i < |s.db.jobs| && s.db.jobs[i].run == r
    case Succeed(w) =>
      IsExecuting(s, w) &&
      var i := s.workers[w].job;
      i < |s.db.jobs| && s.db.jobs[i].run == r && OthersTerminal(s.db.jobs, r, i) &&
      s.db.runs[r].status != if OtherFailed(s.db.jobs, r, i) then Failed else Success
    case Fail(w, _) =>
      IsExecuting(s, w) &&
      var i := s.workers[w].job;
      i < |s.db.jobs| && s.db.jobs[i].run == r && OthersTerminal(s.db.jobs, r, i) &&
      s.db.jobs[i].retryCount + 1 >= s.db.jobs[i].maxRetries && !s.db.runs[r].status.Failed?
    case _ => false
  }

  /** In every interleaving, a run with a terminal status changes status by such an event and by nothing else. */
  lemma FinishedRunChangesIff(s: Sys, e: Event, s': Sys, r: nat)
    requires Shape(s) && RunsInStep(s.db) && Step(s, e, s')
    requires r < |s.db.runs| && Terminal(s.db.runs[r].status)
    ensures r < |s'.db.runs| && (s'.db.runs[r].status != s.db.runs[r].status <==> ChangesRun(s, e, r))
  {
    assert RunInStep(s.db, r);
    match e.action {
      case ClaimJob(_, i, name) =>
        if s.db.jobs[i].run == r { assert s'.db.jobs[i].run == r && s'.db.jobs[i].status == Running; }
      case Succeed(w) =>
        if s.db.jobs[s.workers[w].job].run == r { LateSuccessChangesIff(s.db, s.workers[w].job, 0, e.now); }
      case Fail(w, code) =>
        if s.db.jobs[s.workers[w].job].run == r { LateFailureChangesIff(s.db, s.workers[w].job, code, e.now); }
      case InsertJob(row) => assert s'.db.jobs[|s.db.jobs|] == row;
      case _ =>
    }
  }

  lemma OthersDecide(jobs: seq<Job>, i: nat, row: Job)
    requires i < |jobs| && row.run == jobs[i].run && Terminal(row.status)
    ensures AllTerminal(jobs[i := row], row.run) <==> OthersTerminal(jobs, row.run, i)
  {
    var jobs' := jobs[i := row];
    if AllTerminal(jobs', row.run) {
      forall p | 0 <= p < |jobs| && p != i && jobs[p].run == row.run ensures Terminal(jobs[p].status) {
        assert jobs'[p] == jobs[p];
      }
    }
  }

  lemma LateSuccessChangesIff(db: Db, i: nat, code: int, now: Time)
    requires i < |db.jobs| && db.jobs[i].run < |db.runs| && Terminal(db.runs[db.jobs[i].run].status)
    requires RunInStep(db, db.jobs[i].run)
    ensures var r := db.jobs[i].run;
      Completed(db, i, code, now).runs[r].status != db.runs[r].status <==>
        OthersTerminal(db.jobs, r, i) &&
        db.runs[r].status != if OtherFailed(db.jobs, r, i) then Failed else Success
  {
    var r, jobs' := db.jobs[i].run, Completed(db, i, code, now).jobs;
    assert jobs'[i].run == r && !HasStatus(jobs', r, Running);
    OthersDecide(db.jobs, i, jobs'[i]);
    if p :| 0 <= p < |db.jobs| && p != i && db.jobs[p].run == r && db.jobs[p].status.Failed? {
      assert jobs'[p].status == Failed;
    }
  }

  lemma LateFailureChangesIff(db: Db, i: nat, code: int, now: Time)
    requires i < |db.jobs| && db.jobs[i].run < |db.runs| && Terminal(db.runs[db.jobs[i].run].status)
    requires RunInStep(db, db.jobs[i].run)
    ensures var r := db.jobs[i].run;
      Failure(db, i, code, now).runs[r].status != db.runs[r].status <==>
        OthersTerminal(db.jobs, r, i) && db.jobs[i].retryCount + 1 >= db.jobs[i].maxRetries &&
        !db.runs[r].status.Failed?
  {
    var r, jobs' := db.jobs[i].run, Failure(db, i, code, now).jobs;
    assert jobs'[i] == FailedRow(db.jobs[i], code) && !HasStatus(jobs', r, Running);
    if jobs'[i].status.Failed? { OthersDecide(db.jobs, i, jobs'[i]); }
  }

  predicate RunHas(states: seq<Sys>, n: nat, r: nat, status: Status) {
    n < |states| && r < |states[n].db.runs| && states[n].db.runs[r].status == status
  }

  ghost predicate RunKeeps(states: seq<Sys>, m: nat, k: nat, r: nat, status: Status) {
    forall n: nat :: m <= n <= k ==> RunHas(states, n, r, status)
  }

  predicate ChangesRunAt(states: seq<Sys>, events: seq<Event>, n: nat, r: nat) {
    n < |events| && n < |states| && r < |states[n].db.runs| && ChangesRun(states[n], events[n], r)
  }

  ghost predicate NeverChanged(states: seq<Sys>, events: seq<Event>, m: nat, k: nat, r: nat) {
    forall n: nat :: m <= n < k ==> !ChangesRunAt(states, events, n, r)
  }

  /**
   "A finished run stays finished", without A2: in every run, a terminal run status is kept as long
   as, and only as long as, no such event happens.
   */
  lemma {:induction false} FinishedRunStaysIff(states: seq<Sys>, events: seq<Event>, m: nat, k: nat, r: nat,
                                               status: Status)
    requires IsRun(states, events) && states[0] == EMPTY && m <= k < |states|
    requires RunHas(states, m, r, status) && Terminal(status)
    ensures RunKeeps(states, m, k, r, status) <==> NeverChanged(states, events, m, k, r)
    decreases k
  {
    if m < k {
      FinishedRunStaysIff(states, events, m, k - 1, r, status);
      assert StepAt(states, events, k - 1);
      RunsAlwaysInStep(states, events, k - 1);
      if RunHas(states, k - 1, r, status) {
        FinishedRunChangesIff(states[k - 1], events[k - 1], states[k], r);
      }
      assert RunKeeps(states, m, k, r, status) <==>
        RunKeeps(states, m, k - 1, r, status) && RunHas(states, k, r, status);
      assert NeverChanged(states, events, m, k, r) <==>
        NeverChanged(states, events, m, k - 1, r) && !ChangesRunAt(states, events, k - 1, r);
    }
  }

  // ---------- The failures happen ----------

  lemma SafeIsInStep(s: Sys)
    requires Safe(s)
    ensures RunsInStep(s.db)
  {
    forall r: nat | r < |s.db.runs| ensures RunInStep(s.db, r) {
      assert RunExact(s.db.jobs, r, s.db.runs[r]);
      if HasStatus(s.db.jobs, r, Running) { RunningIsStarted(s, r); }
    }
  }

  /** Worker w is silent past the timeout on job i, with a retry left, and worker v is idle. */
  predicate SilentOn(s: Sys, w: nat, v: nat, i: nat, now: Time) {
    IsExecuting(s, w) && s.workers[w].job == i && v < |s.workers| && s.workers[v].Idle? && i < |s.db.jobs| &&
    s.db.jobs[i].heartbeatAt.Some? && s.db.jobs[i].heartbeatAt.value < now - 30 * SECOND &&
    s.db.jobs[i].retryCount < s.db.jobs[i].maxRetries
  }

  /** Every other job of the run succeeded. */
  predicate IsLastOpen(jobs: seq<Job>, i: nat)
    requires i < |jobs|
  {
    forall p :: 0 <= p < |jobs| && p != i && jobs[p].run == jobs[i].run ==> jobs[p].status.Success?
  }

  /** Both workers on the job: claimed anew with one retry more, everything else of its run as it was. */
  lemma OvertakenJob(s: Sys, w: nat, v: nat, i: nat, now: Time, name: string) returns (s2: Sys)
    requires Safe(s) && SilentOn(s, w, v, i, now)
    ensures exists s1 :: Step(s, Event(ReclaimStuck, now), s1) && Step(s1, Event(ClaimJob(v, i, name), now), s2)
    ensures Shape(s2) && RunsInStep(s2.db) && |s2.db.jobs| == |s.db.jobs|
    ensures v != w && IsExecuting(s2, v) && IsExecuting(s2, w) && s2.workers[v].job == s2.workers[w].job == i
    ensures s2.db.jobs[i].status.Running? && s2.db.jobs[i].retryCount == s.db.jobs[i].retryCount + 1
    ensures SameKey(s2.db.jobs[i], s.db.jobs[i])
    ensures IsLastOpen(s.db.jobs, i) ==> IsLastOpen(s2.db.jobs, i)
  {
    var s1: Sys;
    SafeIsInStep(s);
    s1, s2 := SilentWorkerIsOvertaken(s, w, v, now, name);
    StepKeepsShape(s, Event(ReclaimStuck, now), s1);
    StepKeepsRunsInStep(s, Event(ReclaimStuck, now), s1);
    StepKeepsShape(s1, Event(ClaimJob(v, i, name), now), s2);
    StepKeepsRunsInStep(s1, Event(ClaimJob(v, i, name), now), s2);
  }

  /**
   A success undone: from any safe state, after a reclaim and a claim by v, v's success and then w's
   failure leave the job pending again, or failed if that was its last retry. If the job was the
   run's last, the run is finished with success at first; then it keeps that status although the
   job is pending, until the next claim makes it running again, or it turns to failed.
   */
  lemma LateFailureUndoesSuccess(s: Sys, w: nat, v: nat, i: nat, now: Time, name: string, code: int)
    returns (s2: Sys, s3: Sys, s4: Sys)
    requires Safe(s) && SilentOn(s, w, v, i, now) && code != 0
    ensures exists s1 :: Step(s, Event(ReclaimStuck, now), s1) && Step(s1, Event(ClaimJob(v, i, name), now), s2)
    ensures Step(s2, Event(Succeed(v), now), s3) && Step(s3, Event(Fail(w, code), now), s4)
    ensures |s3.db.jobs| == |s4.db.jobs| == |s.db.jobs| && s3.db.jobs[i].status.Success?
    ensures var undone := if s.db.jobs[i].retryCount + 2 < s.db.jobs[i].maxRetries then Pending else Failed;
      s4.db.jobs[i].status == undone
    ensures var r := s.db.jobs[i].run;
      IsLastOpen(s.db.jobs, i) ==>
        r < |s3.db.runs| && r < |s4.db.runs| && s3.db.runs[r].status.Success? &&
        s4.db.runs[r].status == if s4.db.jobs[i].status.Failed? then Failed else Success
    ensures IsLastOpen(s.db.jobs, i) && s4.db.jobs[i].status.Pending? ==> RunsAgain(s4, v, i, name, now)
  {
    s2 := OvertakenJob(s, w, v, i, now, name);
    s3 := Apply(s2, Event(Succeed(v), now));
    s4 := Apply(s3, Event(Fail(w, code), now));
    StepKeepsInStep(s2, Event(Succeed(v), now), s3);
    var r := s.db.jobs[i].run;
    if IsLastOpen(s.db.jobs, i) {
      assert RunInStep(s3.db, r) && AllTerminal(s3.db.jobs, r) && s3.db.jobs[i].run == r;
      assert !HasStatus(s3.db.jobs, r, Failed);
      FinishedRunChangesIff(s3, Event(Fail(w, code), now), s4, r);
      StepKeepsInStep(s3, Event(Fail(w, code), now), s4);
      assert RunInStep(s4.db, r);
      if s4.db.jobs[i].status.Pending? { ReopenedRunRunsAgain(s4, v, i, name, now); }
    }
  }

  lemma StepKeepsInStep(s: Sys, e: Event, s': Sys)
    requires Shape(s) && RunsInStep(s.db) && Step(s, e, s')
    ensures Shape(s') && RunsInStep(s'.db)
  {
    StepKeepsShape(s, e, s');
    StepKeepsRunsInStep(s, e, s');
  }

  /** Worker v can claim job i, and its run, finished by its status, is running then. */
  ghost predicate RunsAgain(s: Sys, v: nat, i: nat, name: string, now: Time) {
    i < |s.db.jobs| && s.db.jobs[i].run < |s.db.runs| && Terminal(s.db.runs[s.db.jobs[i].run].status) &&
    Enabled(s, ClaimJob(v, i, name)) &&
    var s' := Apply(s, Event(ClaimJob(v, i, name), now));
    s.db.jobs[i].run < |s'.db.runs| && s'.db.runs[s.db.jobs[i].run].status.Running?
  }

  lemma ReopenedRunRunsAgain(s: Sys, v: nat, i: nat, name: string, now: Time)
    requires Shape(s) && RunsInStep(s.db) && i < |s.db.jobs| && s.db.jobs[i].status.Pending?
    requires IsLastOpen(s.db.jobs, i) && Terminal(s.db.runs[s.db.jobs[i].run].status)
    requires v < |s.workers| && s.workers[v].Idle?
    ensures RunsAgain(s, v, i, name, now)
  {
    var s', r := Apply(s, Event(ClaimJob(v, i, name), now)), s.db.jobs[i].run;
    StepKeepsInStep(s, Event(ClaimJob(v, i, name), now), s');
    assert RunInStep(s'.db, r) && s'.db.jobs[i].run == r && s'.db.jobs[i].status == Running;
  }

  /** And a failure undone: v's failure at the retry limit, then w's success. */
  lemma LateSuccessUndoesFailure(s: Sys, w: nat, v: nat, i: nat, now: Time, name: string, code: int)
    returns (s2: Sys, s3: Sys, s4: Sys)
    requires Safe(s) && SilentOn(s, w, v, i, now) && code != 0
    requires s.db.jobs[i].retryCount + 2 >= s.db.jobs[i].maxRetries
    ensures exists s1 :: Step(s, Event(ReclaimStuck, now), s1) && Step(s1, Event(ClaimJob(v, i, name), now), s2)
    ensures Step(s2, Event(Fail(v, code), now), s3) && Step(s3, Event(Succeed(w), now), s4)
    ensures |s3.db.jobs| == |s4.db.jobs| == |s.db.jobs|
    ensures s3.db.jobs[i].status.Failed? && s4.db.jobs[i].status.Success?
    ensures var r := s.db.jobs[i].run;
      IsLastOpen(s.db.jobs, i) ==>
        r < |s3.db.runs| && r < |s4.db.runs| && s3.db.runs[r].status.Failed? && s4.db.runs[r].status.Success?
  {
    s2 := OvertakenJob(s, w, v, i, now, name);
    s3 := Apply(s2, Event(Fail(v, code), now));
    s4 := Apply(s3, Event(Succeed(w), now));
    StepKeepsInStep(s2, Event(Fail(v, code), now), s3);
    var r := s.db.jobs[i].run;
    if IsLastOpen(s.db.jobs, i) {
      assert RunInStep(s3.db, r) && AllTerminal(s3.db.jobs, r) && s3.db.jobs[i].run == r;
      assert HasStatus(s3.db.jobs, r, Failed) && !OtherFailed(s3.db.jobs, r, i);
      FinishedRunChangesIff(s3, Event(Succeed(w), now), s4, r);
      StepKeepsInStep(s3, Event(Succeed(w), now), s4);
      assert RunInStep(s4.db, r) && s4.db.jobs[i].run == r && AllTerminal(s4.db.jobs, r);
    }
  }
}
