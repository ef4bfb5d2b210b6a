/**
 Schedule independence. Any number of workers, interleaved in any way, execute a run exactly as one
 sequential interpreter does that takes its jobs in config order and tries each until it exits 0 or
 fails with max_retries attempts used up; an attempt whose report is lost, because its worker died
 or its query failed, costs a retry and is tried again while a reclaim can spend one.
 */
module Interpreter {
  import opened Options
  import opened JobTable
  import opened Workers
  import opened SafeRuns
  import opened History

  /** What becomes of attempt a of job i: its exit code, or None if no report arrives. */
  type Fate = (nat, nat) -> Option<int>

  // ---------- The sequential interpreter ----------

  /** Attempt a of job i is not its last. */
  predicate Continues(fate: Fate, i: nat, a: nat, max: int) {
    match fate(i, a)
    case Some(code) => code != 0 && a + 1 < max
    case None => a < max
  }

  /** The status of a job whose last attempt came to this; running if no report ever arrives. */
  function FinalStatus(outcome: Option<int>): Status {
    match outcome
    case Some(code) => if code == 0 then Success else Failed
    case None => Running
  }

  function RunJob(fate: Fate, i: nat, a: nat, max: int): (r: (Status, seq<(nat, nat)>))
    ensures r.1 != [] && r.1[0] == (i, a)
    ensures r.0.Success? || r.0.Failed? || r.0.Running?
    decreases max - a
  {
    if Continues(fate, i, a, max) then
      var (status, log) := RunJob(fate, i, a + 1, max);
      (status, [(i, a)] + log)
    else
      (FinalStatus(fate(i, a)), [(i, a)])
  }

  /** The exit code of the last of the first n attempts that was reported. */
  function LastCode(fate: Fate, i: nat, n: nat): Option<int> {
    if n == 0 then None
    else if fate(i, n - 1).Some? then fate(i, n - 1)
    else LastCode(fate, i, n - 1)
  }

  /** The final status and exit code of each job, and every attempt in order. */
  datatype Result = Result(statuses: seq<Status>, codes: seq<Option<int>>, log: seq<(nat, nat)>)

  /** Some job never ended, so none after it was tried. */
  predicate Halted(r: Result) {
    Running in r.statuses
  }

  function AfterJob(before: Result, fate: Fate, i: nat, max: int): Result {
    if Halted(before) then Result(before.statuses + [Pending], before.codes + [None], before.log)
    else
      var (status, log) := RunJob(fate, i, 0, max);
      Result(before.statuses + [status], before.codes + [LastCode(fate, i, |log|)], before.log + log)
  }

  function Interpret(jobs: seq<Job>, ids: seq<nat>, fate: Fate): (r: Result)
    requires forall a :: 0 <= a < |ids| ==> ids[a] < |jobs|
    ensures |r.statuses| == |r.codes| == |ids|
    ensures !Halted(r) ==> forall a :: 0 <= a < |ids| ==> Terminal(r.statuses[a])
  {
    if ids == [] then Result([], [], [])
    else
      var i := ids[|ids| - 1];
      AfterJob(Interpret(jobs, ids[..|ids| - 1], fate), fate, i, jobs[i].maxRetries)
  }

  lemma InterpretNext(jobs: seq<Job>, ids: seq<nat>, n: nat, fate: Fate)
    requires n < |ids| && forall a :: 0 <= a <= n ==> ids[a] < |jobs|
    ensures Interpret(jobs, ids[..n + 1], fate) ==
      AfterJob(Interpret(jobs, ids[..n], fate), fate, ids[n], jobs[ids[n]].maxRetries)
  {
    assert ids[..n + 1][..n] == ids[..n];
  }

  /** The interpreter's verdict on a run. */
  function Verdict(r: Result): Status {
    if Halted(r) then Running else if Failed in r.statuses then Failed else Success
  }

  // ---------- Runs with given fates ----------

  /** Worker w's attempt comes to this. */
  predicate EndsAs(s: Sys, w: nat, fate: Fate, outcome: Option<int>) {
    IsExecuting(s, w) && s.workers[w].job < |s.claims| && s.claims[s.workers[w].job] > 0 &&
    fate(s.workers[w].job, s.claims[s.workers[w].job] - 1) == outcome
  }

  /** Reports carry the exit code of their attempt, and only lost attempts end without one. */
  predicate Fated(s: Sys, e: Event, fate: Fate) {
    match e.action
    case Succeed(w) => EndsAs(s, w, fate, Some(0))
    case Fail(w, code) => EndsAs(s, w, fate, Some(code))
    case LoseReport(w) => EndsAs(s, w, fate, None)
    case Crash(w) => IsExecuting(s, w) ==> EndsAs(s, w, fate, None)
    case _ => true
  }

  ghost predicate IsFated(states: seq<Sys>, events: seq<Event>, fate: Fate)
    requires |states| == |events| + 1
  {
    forall k: nat :: k < |events| ==> Fated(states[k], events[k], fate)
  }

  predicate HasLiveWorker(s: Sys, i: nat) {
    exists w :: 0 <= w < |s.workers| && s.workers[w] == Executing(i)
  }

  /** Job i's latest attempt is lost. */
  predicate IsLost(s: Sys, fate: Fate, i: nat) {
    i < |s.claims| && s.claims[i] > 0 && fate(i, s.claims[i] - 1).None?
  }

  /** Every running job has its worker, or its attempt is lost. */
  predicate RunningIsAccounted(s: Sys, fate: Fate) {
    forall i: nat :: i < |s.db.jobs| && s.db.jobs[i].status.Running? ==> HasLiveWorker(s, i) || IsLost(s, fate, i)
  }

  /** A job claimed c times went on as its attempts' fates say, and is terminal only where the interpreter stops. */
  ghost predicate Follows(j: Job, c: nat, fate: Fate, i: nat) {
    var n := if j.status.Failed? then j.retryCount - 1 else j.retryCount;
    n >= 0 && (forall a: nat :: a < n ==> Continues(fate, i, a, j.maxRetries)) &&
    (Terminal(j.status) ==> fate(i, n).Some? && FinalStatus(fate(i, n)) == j.status) &&
    (j.status.Failed? ==> !Continues(fate, i, n, j.maxRetries)) &&
    (j.status.Running? ==> c > 0 && j.exitCode == LastCode(fate, i, c - 1)) &&
    (!j.status.Running? ==> j.exitCode == LastCode(fate, i, c))
  }

  ghost predicate AllFollow(s: Sys, fate: Fate) {
    |s.claims| == |s.db.jobs| &&
    forall i: nat :: i < |s.db.jobs| ==> Follows(s.db.jobs[i], s.claims[i], fate, i)
  }

  lemma StaysAccounted(s: Sys, v: nat, s': Sys, fate: Fate, i: nat)
    requires HasLiveWorker(s, i) || IsLost(s, fate, i)
    requires |s.workers| <= |s'.workers| && i < |s.claims| && i < |s'.claims| && s'.claims[i] == s.claims[i]
    requires v < |s.workers| && s.workers[v].Executing? && s.workers[v].job == i ==> IsLost(s, fate, i)
    requires forall w :: 0 <= w < |s.workers| && w != v ==> s'.workers[w] == s.workers[w]
    ensures HasLiveWorker(s', i) || IsLost(s', fate, i)
  {
    if !IsLost(s, fate, i) {
      var w :| 0 <= w < |s.workers| && s.workers[w] == Executing(i);
      assert s'.workers[w] == Executing(i);
    }
  }

  lemma StepKeepsAccounted(s: Sys, e: Event, s': Sys, fate: Fate)
    requires JobsOk(s) && OwnersOk(s.db.jobs, s.workers) && RunningIsAccounted(s, fate)
    requires SafeStep(s, e, s') && Fated(s, e, fate)
    ensures RunningIsAccounted(s', fate)
  {
    forall i: nat | i < |s'.db.jobs| && s'.db.jobs[i].status.Running?
      ensures HasLiveWorker(s', i) || IsLost(s', fate, i)
    {
      match e.action {
        case ClaimJob(v, j, _) =>
          if i == j {
            assert s'.workers[v] == Executing(i);
          } else {
            StaysAccounted(s, v, s', fate, i);
          }
        case Succeed(v) => StaysAccounted(s, v, s', fate, i);
        case Fail(v, _) => StaysAccounted(s, v, s', fate, i);
        case Crash(v) => StaysAccounted(s, v, s', fate, i);
        case LoseReport(v) => StaysAccounted(s, v, s', fate, i);
        case _ => StaysAccounted(s, |s.workers|, s', fate, i);
      }
    }
  }

  lemma StepKeepsFollowing(s: Sys, e: Event, s': Sys, fate: Fate)
    requires JobsOk(s) && OwnersOk(s.db.jobs, s.workers) && SafeStep(s, e, s') && Fated(s, e, fate)
    requires RunningIsAccounted(s, fate) && AllFollow(s, fate)
    ensures AllFollow(s', fate)
  {
    StepKeepsShape(s, e, s');
    NewRowsFollow(s, e, s', fate);
    forall i: nat | i < |s'.db.jobs| ensures Follows(s'.db.jobs[i], s'.claims[i], fate, i) {
      if i < |s.db.jobs| { StepKeepsRowFollowing(s, e, s', fate, i); }
    }
  }

  lemma ReportFollows(j: Job, c: nat, fate: Fate, i: nat, code: int, now: Time)
    requires Conserved(j, c) && Follows(j, c, fate, i) && j.status.Running? && fate(i, c - 1) == Some(code)
    ensures Follows(if code == 0 then CompletedRow(j, code, now) else FailedRow(j, code), c, fate, i)
  {
  }

  lemma ClaimFollows(j: Job, c: nat, fate: Fate, i: nat, name: string, now: Time)
    requires Conserved(j, c) && Follows(j, c, fate, i) && j.status.Pending?
    ensures Follows(ClaimedRow(j, name, now), c + 1, fate, i)
  {
  }

  lemma ReclaimFollows(j: Job, c: nat, fate: Fate, i: nat, now: Time)
    requires Conserved(j, c) && Follows(j, c, fate, i) && Stuck(j, TIMEOUT, now) && fate(i, c - 1).None?
    ensures Follows(ReclaimedRow(j, TIMEOUT, now), c, fate, i)
  {
  }

  lemma NewRowsFollow(s: Sys, e: Event, s': Sys, fate: Fate)
    requires Shape(s) && Step(s, e, s')
    ensures |s.db.jobs| <= |s'.db.jobs|
    ensures forall i: nat :: |s.db.jobs| <= i < |s'.db.jobs| ==>
      Follows(s'.db.jobs[i], 0, fate, i) && i < |s'.claims| && s'.claims[i] == 0
  {
    match e.action {
      case ClaimJob(_, _, _) =>
      case InsertJob(_) =>
      case _ =>
    }
  }

  lemma StepKeepsRowFollowing(s: Sys, e: Event, s': Sys, fate: Fate, i: nat)
    requires JobsOk(s) && OwnersOk(s.db.jobs, s.workers) && RunningIsAccounted(s, fate)
    requires SafeStep(s, e, s') && Fated(s, e, fate)
    requires i < |s.db.jobs| && Follows(s.db.jobs[i], s.claims[i], fate, i)
    ensures i < |s'.db.jobs| && i < |s'.claims| && Follows(s'.db.jobs[i], s'.claims[i], fate, i)
  {
    assert Conserved(s.db.jobs[i], s.claims[i]);
    match e.action {
      case ClaimJob(_, j, name) => if i == j { ClaimFollows(s.db.jobs[i], s.claims[i], fate, i, name, e.now); }
      case Succeed(w) => if s.workers[w].job == i { ReportFollows(s.db.jobs[i], s.claims[i], fate, i, 0, e.now); }
      case Fail(w, code) => if s.workers[w].job == i { ReportFollows(s.db.jobs[i], s.claims[i], fate, i, code, e.now); }
      case ReclaimStuck =>
        if Stuck(s.db.jobs[i], TIMEOUT, e.now) {
          assert !HasLiveWorker(s, i);
          ReclaimFollows(s.db.jobs[i], s.claims[i], fate, i, e.now);
        }
      case InsertJob(_) =>
      case _ =>
    }
  }

  /** History and fates hold together. */
  ghost predicate Faithful(s: Sys, fate: Fate) {
    Safe(s) && RunningIsAccounted(s, fate) && AllFollow(s, fate) && LogOk(s)
  }

  lemma StepKeepsFaithful(s: Sys, e: Event, s': Sys, fate: Fate)
    requires Faithful(s, fate) && SafeStep(s, e, s') && Fated(s, e, fate)
    ensures Faithful(s', fate)
  {
    StepKeepsSafe(s, e, s');
    StepKeepsAccounted(s, e, s', fate);
    StepKeepsFollowing(s, e, s', fate);
    StepKeepsLog(s, e, s');
  }

  lemma EmptyIsFaithful(fate: Fate)
    ensures Faithful(EMPTY, fate)
  {
    forall r: nat, ids: seq<nat> | ListsRun(EMPTY.db.jobs, r, ids)
      ensures HistoryOf(EMPTY.log, EMPTY.db.jobs, r) == InSequence(ids, EMPTY.claims)
    {
      ZeroCountsEmptySequence(ids, EMPTY.claims);
    }
  }

  lemma {:induction false} FatedRunsAreFaithful(states: seq<Sys>, events: seq<Event>, fate: Fate, k: nat)
    requires IsSafeRun(states, events) && Faithful(states[0], fate) && IsFated(states, events, fate)
    requires k < |states|
    ensures Faithful(states[k], fate)
  {
    if k > 0 {
      FatedRunsAreFaithful(states, events, fate, k - 1);
      assert SafeStepAt(states, events, k - 1);
      StepKeepsFaithful(states[k - 1], events[k - 1], states[k], fate);
    }
  }

  // ---------- Agreement with the interpreter ----------

  function AttemptsFrom(i: nat, a: nat, n: nat): seq<(nat, nat)> {
    seq(n, k requires 0 <= k < n => (i, a + k))
  }

  lemma {:induction false} RunJobContinued(fate: Fate, i: nat, a: nat, n: nat, max: int)
    requires a <= n && forall b: nat :: a <= b < n ==> Continues(fate, i, b, max)
    ensures RunJob(fate, i, a, max) ==
      (RunJob(fate, i, n, max).0, AttemptsFrom(i, a, n - a) + RunJob(fate, i, n, max).1)
    decreases n - a
  {
    if a == n {
      assert AttemptsFrom(i, a, 0) + RunJob(fate, i, n, max).1 == RunJob(fate, i, n, max).1;
    } else {
      RunJobContinued(fate, i, a + 1, n, max);
      var log := RunJob(fate, i, n, max).1;
      assert AttemptsFrom(i, a, n - a) == [(i, a)] + AttemptsFrom(i, a + 1, n - a - 1);
      assert [(i, a)] + (AttemptsFrom(i, a + 1, n - a - 1) + log) == AttemptsFrom(i, a, n - a) + log;
    }
  }

  /** Without losses the interpreter tries a job until its first exit 0, or max failures. */
  lemma FirstSuccessOrMaxFailures(fate: Fate, i: nat, n: nat, max: nat)
    requires n < max && forall a: nat :: a < n ==> fate(i, a).Some? && fate(i, a) != Some(0)
    ensures fate(i, n) == Some(0) ==> RunJob(fate, i, 0, max) == (Success, FirstAttempts(i, n + 1))
    ensures fate(i, n).Some? && fate(i, n) != Some(0) && n + 1 == max ==>
      RunJob(fate, i, 0, max) == (Failed, FirstAttempts(i, max))
  {
    RunJobContinued(fate, i, 0, n, max);
    assert FirstAttempts(i, n + 1) == AttemptsFrom(i, 0, n) + [(i, n)];
  }

  /** Running with its attempt lost and no retry left for a reclaim. */
  predicate IsStranded(j: Job, c: nat, fate: Fate, i: nat) {
    j.status.Running? && j.retryCount == j.maxRetries && c > 0 && fate(i, c - 1).None?
  }

  /** A terminal or stranded job ended as the interpreter ends it, after as many attempts. */
  lemma EndedJobMatches(j: Job, c: nat, fate: Fate, i: nat)
    requires Conserved(j, c) && Follows(j, c, fate, i) && (Terminal(j.status) || IsStranded(j, c, fate, i))
    ensures c > 0 && RunJob(fate, i, 0, j.maxRetries) == (j.status, FirstAttempts(i, c))
    ensures j.exitCode == LastCode(fate, i, c)
  {
    RunJobContinued(fate, i, 0, c - 1, j.maxRetries);
    assert !Continues(fate, i, c - 1, j.maxRetries);
    assert FirstAttempts(i, c) == AttemptsFrom(i, 0, c - 1) + [(i, c - 1)];
  }

  /** An open job has made a prefix of the interpreter's attempts. */
  lemma OpenJobIsPrefix(j: Job, c: nat, fate: Fate, i: nat)
    requires Conserved(j, c) && Follows(j, c, fate, i) && !Terminal(j.status)
    ensures FirstAttempts(i, c) <= RunJob(fate, i, 0, j.maxRetries).1
  {
    RunJobContinued(fate, i, 0, j.retryCount, j.maxRetries);
  }

  /** Each job has the status and exit code of the result. */
  predicate JobsAgree(jobs: seq<Job>, ids: seq<nat>, result: Result) {
    |result.statuses| == |result.codes| == |ids| && forall a :: 0 <= a < |ids| ==>
      ids[a] < |jobs| && jobs[ids[a]].status == result.statuses[a] && jobs[ids[a]].exitCode == result.codes[a]
  }

  /**
   Nothing more can happen in run r: none of its jobs is claimable, and one that runs has neither
   a worker nor a retry for a reclaim to spend. A run whose jobs are all terminal is one case.
   */
  ghost predicate Settled(s: Sys, r: nat) {
    forall i: nat :: i < |s.db.jobs| && s.db.jobs[i].run == r ==>
      !Claimable(s.db.jobs, i) &&
      (s.db.jobs[i].status.Running? ==> s.db.jobs[i].retryCount == s.db.jobs[i].maxRetries && !HasLiveWorker(s, i))
  }

  lemma FinishedIsSettled(s: Sys, r: nat)
    requires AllTerminal(s.db.jobs, r)
    ensures Settled(s, r)
  {
  }

  /** The first n listed jobs of a settled run match the interpreter's. */
  lemma {:induction false} SettledJobsMatch(s: Sys, fate: Fate, r: nat, ids: seq<nat>, n: nat)
    requires Faithful(s, fate) && ListsRun(s.db.jobs, r, ids) && Settled(s, r) && n <= |ids|
    ensures Interpret(s.db.jobs, ids[..n], fate).log == InSequence(ids[..n], s.claims)
    ensures JobsAgree(s.db.jobs, ids[..n], Interpret(s.db.jobs, ids[..n], fate))
  {
    if n > 0 {
      SettledJobsMatch(s, fate, r, ids, n - 1);
      var i, before := ids[n - 1], Interpret(s.db.jobs, ids[..n - 1], fate);
      InterpretNext(s.db.jobs, ids, n - 1, fate);
      InSequenceNext(ids, n - 1, s.claims);
      SettledJobMatches(s, fate, r, ids, n - 1, before);
      JobsAgreeNext(s.db.jobs, ids, n - 1, before, AfterJob(before, fate, i, s.db.jobs[i].maxRetries));
    }
  }

  lemma InSequenceNext(ids: seq<nat>, n: nat, claims: seq<nat>)
    requires n < |ids| && forall a :: 0 <= a <= n ==> ids[a] < |claims|
    ensures InSequence(ids[..n + 1], claims) == InSequence(ids[..n], claims) + FirstAttempts(ids[n], claims[ids[n]])
  {
    assert ids[..n + 1][..n] == ids[..n];
  }

  /** The next job of a settled run is untouched behind a stranded one, or ended as the interpreter ends it. */
  lemma SettledJobMatches(s: Sys, fate: Fate, r: nat, ids: seq<nat>, n: nat, before: Result)
    requires Faithful(s, fate) && ListsRun(s.db.jobs, r, ids) && Settled(s, r) && n < |ids|
    requires JobsAgree(s.db.jobs, ids[..n], before)
    requires !Halted(before) ==> forall a :: 0 <= a < n ==> Terminal(before.statuses[a])
    ensures var after := AfterJob(before, fate, ids[n], s.db.jobs[ids[n]].maxRetries);
      after.log == before.log + FirstAttempts(ids[n], s.claims[ids[n]]) &&
      after.statuses == before.statuses + [s.db.jobs[ids[n]].status] &&
      after.codes == before.codes + [s.db.jobs[ids[n]].exitCode]
  {
    var i := ids[n];
    assert Conserved(s.db.jobs[i], s.claims[i]) && Follows(s.db.jobs[i], s.claims[i], fate, i);
    if Halted(before) {
      LaterJobIsUntouched(s, r, ids, n, before);
      assert before.log + FirstAttempts(i, 0) == before.log;
    } else {
      NextJobHasEnded(s, fate, r, ids, n, before);
      EndedJobMatches(s.db.jobs[i], s.claims[i], fate, i);
    }
  }

  lemma JobsAgreeNext(jobs: seq<Job>, ids: seq<nat>, n: nat, before: Result, after: Result)
    requires n < |ids| && ids[n] < |jobs| && JobsAgree(jobs, ids[..n], before)
    requires after.statuses == before.statuses + [jobs[ids[n]].status]
    requires after.codes == before.codes + [jobs[ids[n]].exitCode]
    ensures JobsAgree(jobs, ids[..n + 1], after)
  {
    forall a | 0 <= a < n ensures ids[..n + 1][a] == ids[..n][a] {}
  }

  lemma LaterJobIsUntouched(s: Sys, r: nat, ids: seq<nat>, n: nat, before: Result)
    requires JobsOk(s) && InOrder(s.db.jobs, s.claims) && InConfigOrder(s.db.jobs, r, ids) && n < |ids|
    requires JobsAgree(s.db.jobs, ids[..n], before) && Halted(before)
    ensures s.db.jobs[ids[n]].status.Pending? && s.claims[ids[n]] == 0
  {
    var a :| 0 <= a < n && before.statuses[a] == Running;
    assert ids[..n][a] == ids[a] && s.db.jobs[ids[a]].status.Running?;
    assert EarlierInRun(s.db.jobs, ids[a], ids[n]);
    assert Conserved(s.db.jobs[ids[n]], s.claims[ids[n]]);
  }

  lemma NextJobHasEnded(s: Sys, fate: Fate, r: nat, ids: seq<nat>, n: nat, before: Result)
    requires JobsOk(s) && RunningIsAccounted(s, fate) && ListsRun(s.db.jobs, r, ids) && Settled(s, r) && n < |ids|
    requires JobsAgree(s.db.jobs, ids[..n], before)
    requires forall a :: 0 <= a < n ==> Terminal(before.statuses[a])
    ensures var i := ids[n]; Terminal(s.db.jobs[i].status) || IsStranded(s.db.jobs[i], s.claims[i], fate, i)
  {
    var i := ids[n];
    assert Conserved(s.db.jobs[i], s.claims[i]);
    forall p: nat | p < |s.db.jobs| && s.db.jobs[p].run == r && Before(s.db.jobs[p], s.db.jobs[i])
      ensures Terminal(s.db.jobs[p].status)
    {
      var a :| 0 <= a < |ids| && ids[a] == p;
      assert a < n;
      assert ids[..n][a] == p && s.db.jobs[p].status == before.statuses[a];
    }
    assert Gate(s.db.jobs, i) && !Claimable(s.db.jobs, i);
  }

  lemma {:induction false} TerminalJobsMatch(s: Sys, fate: Fate, ids: seq<nat>)
    requires JobsOk(s) && AllFollow(s, fate)
    requires forall a :: 0 <= a < |ids| ==> ids[a] < |s.db.jobs| && Terminal(s.db.jobs[ids[a]].status)
    ensures Interpret(s.db.jobs, ids, fate).log == InSequence(ids, s.claims)
    ensures !Halted(Interpret(s.db.jobs, ids, fate))
  {
    if ids != [] {
      var i := ids[|ids| - 1];
      TerminalJobsMatch(s, fate, ids[..|ids| - 1]);
      assert Conserved(s.db.jobs[i], s.claims[i]) && Follows(s.db.jobs[i], s.claims[i], fate, i);
      EndedJobMatches(s.db.jobs[i], s.claims[i], fate, i);
    }
  }

  /** The attempts of any job are a prefix of the interpreter's. */
  lemma JobIsPrefix(s: Sys, fate: Fate, i: nat)
    requires JobsOk(s) && AllFollow(s, fate) && i < |s.db.jobs|
    ensures FirstAttempts(i, s.claims[i]) <= RunJob(fate, i, 0, s.db.jobs[i].maxRetries).1
  {
    assert Conserved(s.db.jobs[i], s.claims[i]) && Follows(s.db.jobs[i], s.claims[i], fate, i);
    if Terminal(s.db.jobs[i].status) {
      EndedJobMatches(s.db.jobs[i], s.claims[i], fate, i);
    } else {
      OpenJobIsPrefix(s.db.jobs[i], s.claims[i], fate, i);
    }
  }

  lemma {:induction false} HistoryIsPrefix(s: Sys, fate: Fate, r: nat, ids: seq<nat>)
    requires JobsOk(s) && InOrder(s.db.jobs, s.claims) && AllFollow(s, fate) && InConfigOrder(s.db.jobs, r, ids)
    ensures InSequence(ids, s.claims) <= Interpret(s.db.jobs, ids, fate).log
  {
    if ids != [] {
      var n := |ids| - 1;
      var earlier := ids[..n];
      HistoryIsPrefix(s, fate, r, earlier);
      if forall a :: 0 <= a < n ==> Terminal(s.db.jobs[ids[a]].status) {
        TerminalJobsMatch(s, fate, earlier);
        JobIsPrefix(s, fate, ids[n]);
        PrefixAfter(InSequence(earlier, s.claims), FirstAttempts(ids[n], s.claims[ids[n]]),
                    RunJob(fate, ids[n], 0, s.db.jobs[ids[n]].maxRetries).1);
      } else {
        LastIsUntouched(s, r, ids);
        assert InSequence(ids, s.claims) == InSequence(earlier, s.claims);
      }
    }
  }

  lemma PrefixAfter(a: seq<(nat, nat)>, b: seq<(nat, nat)>, c: seq<(nat, nat)>)
    requires b <= c
    ensures a + b <= a + c
  {
  }

  lemma LastIsUntouched(s: Sys, r: nat, ids: seq<nat>)
    requires JobsOk(s) && InOrder(s.db.jobs, s.claims) && InConfigOrder(s.db.jobs, r, ids) && ids != []
    requires exists a :: 0 <= a < |ids| - 1 && !Terminal(s.db.jobs[ids[a]].status)
    ensures FirstAttempts(ids[|ids| - 1], s.claims[ids[|ids| - 1]]) == []
  {
    var a :| 0 <= a < |ids| - 1 && !Terminal(s.db.jobs[ids[a]].status);
    assert EarlierInRun(s.db.jobs, ids[a], ids[|ids| - 1]);
  }

  /** Run r went and ended as the result says: attempts, job statuses, exit codes and run status. */
  predicate RunAgrees(s: Sys, r: nat, ids: seq<nat>, result: Result) {
    HistoryOf(s.log, s.db.jobs, r) == result.log && JobsAgree(s.db.jobs, ids, result) &&
    r < |s.db.runs| && s.db.runs[r].status == Verdict(result)
  }

  /** A table that agrees with the interpreter has its verdict as the run's status. */
  lemma VerdictIsRunStatus(s: Sys, r: nat, ids: seq<nat>, result: Result)
    requires JobsOk(s) && r < |s.db.runs| && RunExact(s.db.jobs, r, s.db.runs[r])
    requires ListsRun(s.db.jobs, r, ids) && ids != [] && JobsAgree(s.db.jobs, ids, result)
    requires !Halted(result) ==> forall a :: 0 <= a < |ids| ==> Terminal(result.statuses[a])
    ensures s.db.runs[r].status == Verdict(result)
  {
    assert s.db.jobs[ids[0]].run == r;
    if Halted(result) {
      var a :| 0 <= a < |ids| && result.statuses[a] == Running;
      assert Conserved(s.db.jobs[ids[a]], s.claims[ids[a]]);
      assert s.db.jobs[ids[a]].startedAt.Some?;
    } else {
      assert AllTerminal(s.db.jobs, r);
      if HasStatus(s.db.jobs, r, Failed) {
        var i :| 0 <= i < |s.db.jobs| && s.db.jobs[i].run == r && s.db.jobs[i].status == Failed;
        var a :| 0 <= a < |ids| && ids[a] == i;
        assert result.statuses[a] == Failed;
      }
    }
  }

  lemma SettledStateMatches(s: Sys, fate: Fate, r: nat, ids: seq<nat>)
    requires Faithful(s, fate) && r < |s.db.runs| && ListsRun(s.db.jobs, r, ids) && ids != [] && Settled(s, r)
    ensures RunAgrees(s, r, ids, Interpret(s.db.jobs, ids, fate))
  {
    assert ids[..|ids|] == ids;
    SettledJobsMatch(s, fate, r, ids, |ids|);
    assert RunExact(s.db.jobs, r, s.db.runs[r]);
    VerdictIsRunStatus(s, r, ids, Interpret(s.db.jobs, ids, fate));
  }

  /**
   Schedule independence, for every interleaving of any number of workers that starts from empty
   tables, with crashes, lost reports and reclaims: at any moment the attempts made in a run are a
   prefix of the sequential interpreter's, and once the run is finished, or can never be, the
   attempts, the job statuses, the exit codes and the run status are exactly the interpreter's.
   */
  lemma ScheduleIndependence(states: seq<Sys>, events: seq<Event>, fate: Fate, r: nat, ids: seq<nat>)
    requires IsSafeRun(states, events) && states[0] == EMPTY && IsFated(states, events, fate)
    requires r < |states[|events|].db.runs| && ListsRun(states[|events|].db.jobs, r, ids)
    ensures var s := states[|events|];
      HistoryOf(s.log, s.db.jobs, r) <= Interpret(s.db.jobs, ids, fate).log &&
      (ids != [] && (AllTerminal(s.db.jobs, r) || Settled(s, r)) ==>
         RunAgrees(s, r, ids, Interpret(s.db.jobs, ids, fate)))
  {
    EmptyIsFaithful(fate);
    FaithfulRunsMatch(states, events, fate, r, ids);
  }

  /** The same from any faithful state. */
  lemma FaithfulRunsMatch(states: seq<Sys>, events: seq<Event>, fate: Fate, r: nat, ids: seq<nat>)
    requires IsSafeRun(states, events) && Faithful(states[0], fate) && IsFated(states, events, fate)
    requires r < |states[|events|].db.runs| && ListsRun(states[|events|].db.jobs, r, ids)
    ensures var s := states[|events|];
      HistoryOf(s.log, s.db.jobs, r) <= Interpret(s.db.jobs, ids, fate).log &&
      (ids != [] && (AllTerminal(s.db.jobs, r) || Settled(s, r)) ==>
         RunAgrees(s, r, ids, Interpret(s.db.jobs, ids, fate)))
  {
    var s := states[|events|];
    FatedRunsAreFaithful(states, events, fate, |events|);
    HistoryIsPrefix(s, fate, r, ids);
    if AllTerminal(s.db.jobs, r) { FinishedIsSettled(s, r); }
    if ids != [] && Settled(s, r) { SettledStateMatches(s, fate, r, ids); }
  }

  lemma {:induction false} InterpretDependsOnLimits(jobs: seq<Job>, jobs': seq<Job>, ids: seq<nat>, fate: Fate)
    requires forall a :: 0 <= a < |ids| ==>
      ids[a] < |jobs| && ids[a] < |jobs'| && jobs'[ids[a]].maxRetries == jobs[ids[a]].maxRetries
    ensures Interpret(jobs', ids, fate) == Interpret(jobs, ids, fate)
  {
    if ids != [] { InterpretDependsOnLimits(jobs, jobs', ids[..|ids| - 1], fate); }
  }

  /** Confluence: two interleavings with the same fates that settle a run agree on all of it. */
  lemma Confluence(states: seq<Sys>, events: seq<Event>, states': seq<Sys>, events': seq<Event>,
                   fate: Fate, r: nat, ids: seq<nat>)
    requires IsSafeRun(states, events) && states[0] == EMPTY && IsFated(states, events, fate)
    requires IsSafeRun(states', events') && states'[0] == EMPTY && IsFated(states', events', fate)
    requires var s, s' := states[|events|], states'[|events'|];
      r < |s.db.runs| && r < |s'.db.runs| && ids != [] &&
      ListsRun(s.db.jobs, r, ids) && ListsRun(s'.db.jobs, r, ids) && Settled(s, r) && Settled(s', r) &&
      forall a :: 0 <= a < |ids| ==> s.db.jobs[ids[a]].maxRetries == s'.db.jobs[ids[a]].maxRetries
    ensures var s, s' := states[|events|], states'[|events'|];
      HistoryOf(s.log, s.db.jobs, r) == HistoryOf(s'.log, s'.db.jobs, r) &&
      s.db.runs[r].status == s'.db.runs[r].status &&
      forall a :: 0 <= a < |ids| ==>
        s.db.jobs[ids[a]].status == s'.db.jobs[ids[a]].status &&
        s.db.jobs[ids[a]].exitCode == s'.db.jobs[ids[a]].exitCode
  {
    ScheduleIndependence(states, events, fate, r, ids);
    ScheduleIndependence(states', events', fate, r, ids);
    InterpretDependsOnLimits(states[|events|].db.jobs, states'[|events'|].db.jobs, ids, fate);
  }
}
