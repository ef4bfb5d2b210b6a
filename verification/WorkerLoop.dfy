/**
 The worker's loop over the job queue: claim, execute, report exactly once, and go on until nothing
 is claimable, while the process's own reclaims run between turns. The loop goes on when a query of it
 throws: a claim that took effect is then lost to it, and so is a report.
 */
module WorkerLoop {
  import opened Options
  import opened JobTable
  import opened Workers
  import opened Attempts
  import opened SafeRuns
  import opened Progress
  import opened Interpreter
  import opened DeployExecution
  import opened JobStore

  /** For attempt a of job i: whether the claim's reply arrives, what executing comes to, whether its report arrives. */
  datatype Plan = Plan(
    answered: (nat, nat) -> bool,
    execute: (nat, nat) -> ExecResult,
    reported: (nat, nat) -> bool)

  predicate Arrives(plan: Plan, i: nat, a: nat) {
    plan.answered(i, a) && plan.reported(i, a)
  }

  /** A thrown execution counts as exit code 1. */
  function ExitCode(r: ExecResult): int {
    match r
    case Exit(code) => code
    case Thrown => 1
  }

  function FateOf(plan: Plan): Fate {
    (i: nat, a: nat) => if Arrives(plan, i, a) then Some(ExitCode(plan.execute(i, a))) else None
  }

  /** The table after the report, if it arrives. */
  function Reported(db: Db, i: nat, outcome: Option<int>, now: Time): Db {
    match outcome
    case None => db
    case Some(code) => if code == 0 then Completed(db, i, 0, now) else Failure(db, i, code, now)
  }

  /** How worker w's attempt ends. */
  function EndOf(w: nat, outcome: Option<int>): Action {
    match outcome
    case None => LoseReport(w)
    case Some(code) => if code == 0 then Succeed(w) else Fail(w, code)
  }

  lemma ConservedIsBounded(s: Sys)
    requires JobsOk(s)
    ensures AllAttemptsOk(s)
  {
  }

  lemma FatedStepKeepsFaithful(s: Sys, e: Event, s': Sys, fate: Fate)
    requires Faithful(s, fate) && SafeStep(s, e, s') && Fated(s, e, fate) && !e.action.InsertJob?
    ensures Faithful(s', fate) && AllAttemptsOk(s) && AllAttemptsOk(s')
    ensures Measure(s') + (if IsWork(s, e) || e.action.LoseReport? then 1 else 0) <= Measure(s)
  {
    StepKeepsFaithful(s, e, s', fate);
    ConservedIsBounded(s);
    ConservedIsBounded(s');
    if e.action.LoseReport? { LosingSpendsWeight(s, e, s'); } else { WorkSpendsWeight(s, e, s'); }
  }

  predicate IdleAlone(s: Sys, w: nat) {
    NoneExecuting(s) && w < |s.workers| && s.workers[w].Idle?
  }

  predicate AloneExecuting(s: Sys, w: nat, i: nat) {
    w < |s.workers| && s.workers[w] == Executing(i) &&
    forall v :: 0 <= v < |s.workers| && v != w ==> !s.workers[v].Executing?
  }

  /** The state after worker w's claim of job i. */
  lemma ClaimTurn(s: Sys, w: nat, i: nat, name: string, now: Time, fate: Fate) returns (s': Sys)
    requires Faithful(s, fate) && IdleAlone(s, w) && Claimable(s.db.jobs, i)
    ensures AloneExecuting(s', w, i) && s'.db == Claim(s.db, i, name, now)
    ensures i < |s.claims| && s'.claims == s.claims[i := s.claims[i] + 1] && s'.log == s.log + [(i, s.claims[i])]
    ensures Faithful(s', fate) && AllAttemptsOk(s) && AllAttemptsOk(s') && Measure(s') < Measure(s)
  {
    var e := Event(ClaimJob(w, i, name), now);
    s' := Apply(s, e);
    FatedStepKeepsFaithful(s, e, s', fate);
  }

  /** The step that ends worker w's attempt at job i, the only one under way. */
  lemma EndStep(s: Sys, w: nat, i: nat, outcome: Option<int>, now: Time) returns (s': Sys)
    requires i < |s.db.jobs| && AloneExecuting(s, w, i)
    ensures SafeStep(s, Event(EndOf(w, outcome), now), s') && IdleAlone(s', w) && s'.log == s.log
    ensures s'.db == Reported(s.db, i, outcome, now)
  {
    s' := Apply(s, Event(EndOf(w, outcome), now));
  }

  /** The state after worker w's attempt at job i, the only one under way. */
  lemma EndTurn(s: Sys, w: nat, i: nat, outcome: Option<int>, now: Time, fate: Fate) returns (s': Sys)
    requires Faithful(s, fate) && AloneExecuting(s, w, i)
    requires i < |s.claims| && s.claims[i] > 0 && outcome == fate(i, s.claims[i] - 1)
    ensures IdleAlone(s', w) && s'.log == s.log && s'.db == Reported(s.db, i, outcome, now)
    ensures Faithful(s', fate) && AllAttemptsOk(s) && AllAttemptsOk(s') && Measure(s') < Measure(s)
  {
    s' := EndStep(s, w, i, outcome, now);
    FatedStepKeepsFaithful(s, Event(EndOf(w, outcome), now), s', fate);
  }

  /** A claim and its report together; a pending job's retries number its next attempt. */
  lemma ClaimAndReport(s: Sys, w: nat, i: nat, name: string, t: Time, outcome: Option<int>, t': Time, fate: Fate)
    returns (s': Sys)
    requires Faithful(s, fate) && IdleAlone(s, w) && Claimable(s.db.jobs, i)
    requires s.db.jobs[i].retryCount >= 0 && outcome == fate(i, s.db.jobs[i].retryCount)
    ensures i < |s.claims| && s'.log == s.log + [(i, s.claims[i])]
    ensures s'.db == Reported(Claim(s.db, i, name, t), i, outcome, t')
    ensures Faithful(s', fate) && IdleAlone(s', w) && AllAttemptsOk(s) && AllAttemptsOk(s')
    ensures Measure(s') + 2 <= Measure(s)
  {
    assert Conserved(s.db.jobs[i], s.claims[i]);
    var claimed := ClaimTurn(s, w, i, name, t, fate);
    s' := EndTurn(claimed, w, i, outcome, t', fate);
  }

  /** A reclaim while no worker executes. */
  lemma ReclaimTurn(s: Sys, w: nat, now: Time, fate: Fate) returns (s': Sys)
    requires Faithful(s, fate) && IdleAlone(s, w)
    ensures s'.db == Reclaim(s.db, TIMEOUT, now) && s'.log == s.log && IdleAlone(s', w)
    ensures Faithful(s', fate) && AllAttemptsOk(s) && AllAttemptsOk(s') && Measure(s') <= Measure(s)
  {
    s' := Apply(s, Event(ReclaimStuck, now));
    FatedStepKeepsFaithful(s, Event(ReclaimStuck, now), s', fate);
  }

  lemma RetriesAreNatural(s: Sys, i: nat)
    requires JobsOk(s) && i < |s.db.jobs|
    ensures s.db.jobs[i].retryCount >= 0
  {
    assert Conserved(s.db.jobs[i], s.claims[i]);
  }

  /** Job i's attempt was lost, or that of an earlier job of its run, which still runs. */
  predicate WaitsForLost(jobs: seq<Job>, fate: Fate, i: nat) {
    exists p: nat :: p < |jobs| && (p == i || EarlierInRun(jobs, p, i)) && jobs[p].status.Running? &&
      jobs[p].retryCount >= 0 && fate(p, jobs[p].retryCount).None?
  }

  /** Every job has ended as the interpreter ends it, or waits for a lost attempt. */
  ghost predicate EndedAs(jobs: seq<Job>, fate: Fate) {
    forall i: nat :: i < |jobs| ==>
      if Terminal(jobs[i].status) then jobs[i].status == RunJob(fate, i, 0, jobs[i].maxRetries).0
      else WaitsForLost(jobs, fate, i)
  }

  lemma OpenWaitsForLost(s: Sys, fate: Fate, i: nat)
    requires RunningIsAccounted(s, fate) && NoneExecuting(s) && JobsOk(s)
    requires i < |s.db.jobs| && !Terminal(s.db.jobs[i].status)
    requires forall k: nat :: !Claimable(s.db.jobs, k)
    ensures WaitsForLost(s.db.jobs, fate, i)
  {
    var m := EarliestOpen(s.db.jobs, i);
    assert Conserved(s.db.jobs[m], s.claims[m]) && !Claimable(s.db.jobs, m);
    assert !HasLiveWorker(s, m);
  }

  /** With no attempt under way and nothing claimable, every job has ended or waits for a lost attempt. */
  lemma NothingClaimableMeansEnded(s: Sys, fate: Fate)
    requires Faithful(s, fate) && NoneExecuting(s) && forall k: nat :: !Claimable(s.db.jobs, k)
    ensures EndedAs(s.db.jobs, fate)
  {
    forall i: nat | i < |s.db.jobs|
      ensures if Terminal(s.db.jobs[i].status)
              then s.db.jobs[i].status == RunJob(fate, i, 0, s.db.jobs[i].maxRetries).0
              else WaitsForLost(s.db.jobs, fate, i)
    {
      if Terminal(s.db.jobs[i].status) {
        assert Conserved(s.db.jobs[i], s.claims[i]) && Follows(s.db.jobs[i], s.claims[i], fate, i);
        EndedJobMatches(s.db.jobs[i], s.claims[i], fate, i);
      } else {
        OpenWaitsForLost(s, fate, i);
      }
    }
  }

  method Report(q: Store, i: nat, exitCode: int, now: Time)
    modifies q
    ensures q.Contents() == Reported(old(q.Contents()), i, Some(exitCode), now)
  {
    if exitCode == 0 {
      q.MarkCompleted(i, exitCode, now);
    } else {
      q.MarkFailed(i, exitCode, now);
    }
  }

  /** What follows the claim of attempt a of job i. */
  method ExecuteAndReport(q: Store, plan: Plan, i: nat, a: nat, now: Time)
    modifies q
    ensures q.Contents() == Reported(old(q.Contents()), i, FateOf(plan)(i, a), now)
  {
    assert FateOf(plan)(i, a) == if Arrives(plan, i, a) then Some(ExitCode(plan.execute(i, a))) else None;
    if plan.answered(i, a) {
      var exitCode := ExitCode(plan.execute(i, a));
      if plan.reported(i, a) { Report(q, i, exitCode, now); }
    }
  }

  /** The row after a turn: claimed and no more; success for exit code 0; or one retry more, a throw counting as 1. */
  lemma TurnInColumns(db: Db, i: nat, name: string, plan: Plan, claimAt: Time, reportAt: Time)
    requires i < |db.jobs| && db.jobs[i].retryCount >= 0
    ensures var was := db.jobs[i];
      var a: nat := was.retryCount;
      var jobs := Reported(Claim(db, i, name, claimAt), i, FateOf(plan)(i, a), reportAt).jobs;
      i < |jobs| && jobs == db.jobs[i := jobs[i]] &&
      if !plan.answered(i, a) || !plan.reported(i, a) then
        jobs[i] == was.(status := Running, claimedBy := Some(name), claimedAt := Some(claimAt),
                        heartbeatAt := Some(claimAt), startedAt := Some(claimAt))
      else if plan.execute(i, a) == Exit(0) then
        jobs[i] == was.(status := Success, exitCode := Some(0), completedAt := Some(reportAt),
                        claimedBy := Some(name), claimedAt := Some(claimAt),
                        heartbeatAt := Some(claimAt), startedAt := Some(claimAt))
      else
        jobs[i] == was.(status := if a + 1 >= was.maxRetries then Failed else Pending, retryCount := a + 1,
                        exitCode := Some(if plan.execute(i, a).Thrown? then 1 else plan.execute(i, a).code),
                        claimedBy := None, claimedAt := None,
                        heartbeatAt := Some(claimAt), startedAt := Some(claimAt))
  {
    var a: nat := db.jobs[i].retryCount;
    assert FateOf(plan)(i, a) == if Arrives(plan, i, a) then Some(ExitCode(plan.execute(i, a))) else None;
  }

  /**
   One turn of the loop: a claim, its execution and exactly one report, or nothing claimable. `job`
   is the job claimed in the table, even if the claim's reply is lost.
   */
  method TakeTurn(q: Store, name: string, w: nat, plan: Plan, claimAt: Time, reportAt: Time, ghost s0: Sys)
    returns (job: Option<nat>, ghost s: Sys)
    requires s0.db == q.Contents() && Faithful(s0, FateOf(plan)) && IdleAlone(s0, w)
    modifies q
    ensures s.db == q.Contents() && Faithful(s, FateOf(plan)) && IdleAlone(s, w)
    ensures job.None? ==> s == s0 && forall k: nat :: !Claimable(q.jobs, k)
    ensures job.Some? ==> Selected(old(q.jobs), {}, job.value) && old(q.jobs)[job.value].retryCount >= 0
    ensures job.Some? ==>
      var i := job.value;
      q.Contents() == Reported(Claim(old(q.Contents()), i, name, claimAt), i,
                               FateOf(plan)(i, old(q.jobs)[i].retryCount), reportAt)
    ensures job.Some? ==>
      var i, was := job.value, old(q.jobs)[job.value];
      var a: nat := was.retryCount;
      i < |q.jobs| && q.jobs == old(q.jobs)[i := q.jobs[i]] &&
      if !plan.answered(i, a) || !plan.reported(i, a) then
        q.jobs[i] == was.(status := Running, claimedBy := Some(name), claimedAt := Some(claimAt),
                          heartbeatAt := Some(claimAt), startedAt := Some(claimAt))
      else if plan.execute(i, a) == Exit(0) then
        q.jobs[i] == was.(status := Success, exitCode := Some(0), completedAt := Some(reportAt),
                          claimedBy := Some(name), claimedAt := Some(claimAt),
                          heartbeatAt := Some(claimAt), startedAt := Some(claimAt))
      else
        q.jobs[i] == was.(status := if a + 1 >= was.maxRetries then Failed else Pending, retryCount := a + 1,
                          exitCode := Some(if plan.execute(i, a).Thrown? then 1 else plan.execute(i, a).code),
                          claimedBy := None, claimedAt := None,
                          heartbeatAt := Some(claimAt), startedAt := Some(claimAt))
    ensures job.Some? ==> job.value < |s0.claims| && s.log == s0.log + [(job.value, s0.claims[job.value])]
    ensures AllAttemptsOk(s0) && AllAttemptsOk(s) && Measure(s) + (if job.Some? then 2 else 0) <= Measure(s0)
  {
    s := s0;
    ConservedIsBounded(s);
    job := q.ClaimNextJob(name, {}, claimAt);
    if job.Some? {
      var i := job.value;
      RetriesAreNatural(s, i);
      var attempt := q.jobs[i].retryCount;
      s := ClaimAndReport(s, w, i, name, claimAt, FateOf(plan)(i, attempt), reportAt, FateOf(plan));
      ExecuteAndReport(q, plan, i, attempt, reportAt);
      TurnInColumns(old(q.Contents()), i, name, plan, claimAt, reportAt);
    }
  }

  /** The reclaim loop of the same process comes round, if it does. */
  method ReclaimBetween(q: Store, w: nat, plan: Plan, due: bool, now: Time, ghost s0: Sys) returns (ghost s: Sys)
    requires s0.db == q.Contents() && Faithful(s0, FateOf(plan)) && IdleAlone(s0, w)
    modifies q
    ensures s.db == q.Contents() && Faithful(s, FateOf(plan)) && IdleAlone(s, w) && s.log == s0.log
    ensures q.Contents() == if due then Reclaim(old(q.Contents()), TIMEOUT, now) else old(q.Contents())
    ensures AllAttemptsOk(s0) && AllAttemptsOk(s) && Measure(s) <= Measure(s0)
  {
    s := s0;
    ConservedIsBounded(s);
    if due {
      s := ReclaimTurn(s, w, now, FateOf(plan));
      q.ReclaimStuckJobs(30, now);
    }
  }

  /** One round of the loop, in which the claim may throw without having taken effect. */
  method TakeRound(q: Store, name: string, w: nat, plan: Plan, throws: bool, due: bool, reclaimAt: Time,
                   claimAt: Time, reportAt: Time, ghost s0: Sys)
    returns (idle: bool, ghost s: Sys)
    requires s0.db == q.Contents() && Faithful(s0, FateOf(plan)) && IdleAlone(s0, w)
    modifies q
    ensures s.db == q.Contents() && Faithful(s, FateOf(plan)) && IdleAlone(s, w)
    ensures |s.log| == |s0.log| + if throws || idle then 0 else 1
    ensures AllAttemptsOk(s0) && AllAttemptsOk(s) && Measure(s) + 2 * (|s.log| - |s0.log|) <= Measure(s0)
    ensures idle ==> !throws && EndedAs(q.jobs, FateOf(plan))
  {
    s := ReclaimBetween(q, w, plan, due, reclaimAt, s0);
    if throws { return false, s; }
    var job;
    job, s := TakeTurn(q, name, w, plan, claimAt, reportAt, s);
    idle := job.None?;
    if idle { NothingClaimableMeansEnded(s, FateOf(plan)); }
  }

  lemma AllEndedIfAllArrive(jobs: seq<Job>, plan: Plan)
    requires EndedAs(jobs, FateOf(plan)) && forall i: nat, a: nat :: Arrives(plan, i, a)
    ensures forall i: nat :: i < |jobs| ==> Terminal(jobs[i].status)
  {
    forall i: nat | i < |jobs| ensures Terminal(jobs[i].status) {
      assert !WaitsForLost(jobs, FateOf(plan), i);
    }
  }

  /** The claim of round k throws without having taken effect. */
  predicate ClaimThrows(throws: seq<bool>, k: nat) {
    k < |throws| && throws[k]
  }

  function AtMost(n: nat, max: nat): nat {
    if n < max then n else max
  }

  /**
   The loop from its start to its first empty claim, or until it is stopped, by the only worker
   active. `s` is the history, which the loop extends by one claim each round but the finitely many
   in which the claim throws.
   */
  method RunLoop(q: Store, name: string, w: nat, plan: Plan, throws: seq<bool>, reclaims: nat -> bool,
                 clock: nat -> Time, aborted: nat -> bool, ghost s0: Sys)
    returns (stopped: bool, rounds: nat, ghost s: Sys)
    requires s0.db == q.Contents() && Faithful(s0, FateOf(plan)) && IdleAlone(s0, w)
    modifies q
    ensures s.db == q.Contents() && Faithful(s, FateOf(plan)) && IdleAlone(s, w)
    ensures |s.log| >= |s0.log| && rounds <= |s.log| - |s0.log| + |throws|
    ensures AllAttemptsOk(s0) && AllAttemptsOk(s) && 2 * (|s.log| - |s0.log|) + Measure(s) <= Measure(s0)
    ensures stopped ==> aborted(rounds)
    ensures !stopped ==> forall i: nat :: i < |q.jobs| ==>
      if Terminal(q.jobs[i].status) then q.jobs[i].status == RunJob(FateOf(plan), i, 0, q.jobs[i].maxRetries).0
      else WaitsForLost(q.jobs, FateOf(plan), i)
    ensures !stopped && (forall i: nat, a: nat :: Arrives(plan, i, a)) ==>
      forall i: nat :: i < |q.jobs| ==> Terminal(q.jobs[i].status)
  {
    s := s0;
    rounds := 0;
    ConservedIsBounded(s);
    while !aborted(rounds)
      invariant s.db == q.Contents() && Faithful(s, FateOf(plan)) && AllAttemptsOk(s) && IdleAlone(s, w)
      invariant |s.log| >= |s0.log| && 2 * (|s.log| - |s0.log|) + Measure(s) <= Measure(s0)
      invariant rounds <= |s.log| - |s0.log| + AtMost(rounds, |throws|)
      decreases Measure(s), |throws| - rounds
    {
      var idle;
      idle, s := TakeRound(q, name, w, plan, ClaimThrows(throws, rounds), reclaims(rounds), clock(3 * rounds),
                           clock(3 * rounds + 1), clock(3 * rounds + 2), s);
      if idle {
        if forall i: nat, a: nat :: Arrives(plan, i, a) { AllEndedIfAllArrive(q.jobs, plan); }
        return false, rounds, s;
      }
      rounds := rounds + 1;
    }
    stopped := true;
  }
}
