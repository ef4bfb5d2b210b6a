/**
 Attempts are bounded and the queue's work is finite, in every interleaving: nothing here assumes
 that a job is reported only by the worker that holds it.
 */
module Attempts {
  import opened JobTable
  import opened Sums
  import opened Workers

  /**
   A job claimed c times so far. Only a claim uses up a return to pending, and each return costs a
   retry; a failed job has none left.
   */
  predicate AttemptsOk(j: Job, c: nat) {
    j.maxRetries >= 1 && j.retryCount >= 0 &&
    (j.status.Pending? || j.status.Running? ==> j.retryCount <= j.maxRetries) &&
    (j.status.Failed? ==> j.retryCount >= j.maxRetries) && !j.status.Cancelled? &&
    c <= j.retryCount + (if j.status.Pending? then 0 else 1) &&
    c <= j.maxRetries + 1
  }

  predicate AllAttemptsOk(s: Sys) {
    Shape(s) && forall i :: 0 <= i < |s.db.jobs| ==> AttemptsOk(s.db.jobs[i], s.claims[i])
  }

  lemma StepKeepsAttemptsOk(s: Sys, e: Event, s': Sys)
    requires AllAttemptsOk(s) && Step(s, e, s')
    ensures AllAttemptsOk(s')
  {
    StepKeepsShape(s, e, s');
    match e.action {
      case ClaimJob(_, _, _) =>
      case Succeed(_) =>
      case Fail(_, _) =>
      case ReclaimStuck =>
      case InsertJob(_) =>
      case _ =>
    }
  }

  /** No interleaving claims a job more than max_retries + 1 times or retries it past the limit. */
  lemma {:induction false} AttemptsAreBounded(states: seq<Sys>, events: seq<Event>, k: nat)
    requires IsRun(states, events) && states[0] == EMPTY && k < |states|
    ensures AllAttemptsOk(states[k])
    ensures forall i :: 0 <= i < |states[k].db.jobs| ==>
      states[k].claims[i] <= states[k].db.jobs[i].maxRetries + 1
  {
    if k > 0 {
      AttemptsAreBounded(states, events, k - 1);
      assert StepAt(states, events, k - 1);
      StepKeepsAttemptsOk(states[k - 1], events[k - 1], states[k]);
    }
  }

  // ---------- Termination ----------

  /** Three for each claim still allowed, and one while running. */
  function JobWeight(j: Job, c: nat): nat
    requires AttemptsOk(j, c)
  {
    3 * (j.maxRetries + 1 - c) + if j.status.Running? then 1 else 0
  }

  function JobWeights(s: Sys): seq<nat>
    requires AllAttemptsOk(s)
  {
    seq(|s.db.jobs|, i requires 0 <= i < |s.db.jobs| => JobWeight(s.db.jobs[i], s.claims[i]))
  }

  /** One for each attempt that can still report. */
  function WorkerWeights(workers: seq<Worker>): seq<nat> {
    seq(|workers|, w requires 0 <= w < |workers| => if workers[w].Executing? then 1 else 0)
  }

  function Measure(s: Sys): nat
    requires AllAttemptsOk(s)
  {
    Sum(JobWeights(s)) + Sum(WorkerWeights(s.workers))
  }

  /** A claim, a report, or a reclaim that finds a stuck row. */
  predicate IsWork(s: Sys, e: Event) {
    match e.action
    case ClaimJob(_, _, _) => true
    case Succeed(_) => true
    case Fail(_, _) => true
    case ReclaimStuck => exists i :: 0 <= i < |s.db.jobs| && Stuck(s.db.jobs[i], TIMEOUT, e.now)
    case _ => false
  }

  lemma WorkerWeightUpdate(workers: seq<Worker>, w: nat, x: Worker)
    requires w < |workers|
    ensures Sum(WorkerWeights(workers[w := x])) == Sum(WorkerWeights(workers)) -
      (if workers[w].Executing? then 1 else 0) + (if x.Executing? then 1 else 0)
  {
    var n: nat := if x.Executing? then 1 else 0;
    SumUpdate(WorkerWeights(workers), w, n);
    assert WorkerWeights(workers[w := x]) == WorkerWeights(workers)[w := n];
  }

  lemma JobWeightUpdate(s: Sys, s': Sys, i: nat)
    requires AllAttemptsOk(s) && AllAttemptsOk(s') && i < |s.db.jobs| == |s'.db.jobs|
    requires forall k :: 0 <= k < |s.db.jobs| && k != i ==>
      s'.db.jobs[k] == s.db.jobs[k] && s'.claims[k] == s.claims[k]
    ensures Sum(JobWeights(s')) == Sum(JobWeights(s)) - JobWeight(s.db.jobs[i], s.claims[i])
      + JobWeight(s'.db.jobs[i], s'.claims[i])
  {
    SumUpdate(JobWeights(s), i, JobWeight(s'.db.jobs[i], s'.claims[i]));
    assert JobWeights(s') == JobWeights(s)[i := JobWeight(s'.db.jobs[i], s'.claims[i])];
  }

  lemma ReclaimSpendsWeight(s: Sys, e: Event, s': Sys)
    requires AllAttemptsOk(s) && AllAttemptsOk(s') && e.action.ReclaimStuck? && Step(s, e, s')
    ensures Measure(s') + (if IsWork(s, e) then 1 else 0) <= Measure(s)
  {
    SumAtMost(JobWeights(s'), JobWeights(s));
    if i :| 0 <= i < |s.db.jobs| && Stuck(s.db.jobs[i], TIMEOUT, e.now) {
      SumLess(JobWeights(s'), JobWeights(s), i);
    }
  }

  lemma ReportSpendsWeight(s: Sys, w: nat, s': Sys)
    requires AllAttemptsOk(s) && AllAttemptsOk(s') && IsExecuting(s, w)
    requires |s'.db.jobs| == |s.db.jobs| && s'.claims == s.claims && s'.workers == s.workers[w := Idle]
    requires forall k :: 0 <= k < |s.db.jobs| && k != s.workers[w].job ==> s'.db.jobs[k] == s.db.jobs[k]
    requires var i := s.workers[w].job;
      s'.db.jobs[i].maxRetries == s.db.jobs[i].maxRetries && !s'.db.jobs[i].status.Running?
    ensures Measure(s') + 1 <= Measure(s)
  {
    JobWeightUpdate(s, s', s.workers[w].job);
    WorkerWeightUpdate(s.workers, w, Idle);
  }

  lemma ClaimSpendsWeight(s: Sys, w: nat, i: nat, s': Sys)
    requires AllAttemptsOk(s) && AllAttemptsOk(s') && w < |s.workers| && s.workers[w].Idle? && i < |s.db.jobs|
    requires |s'.db.jobs| == |s.db.jobs| && s'.workers == s.workers[w := Executing(i)]
    requires s'.claims == s.claims[i := s.claims[i] + 1]
    requires forall k :: 0 <= k < |s.db.jobs| && k != i ==> s'.db.jobs[k] == s.db.jobs[k]
    requires s.db.jobs[i].status.Pending? && s'.db.jobs[i].maxRetries == s.db.jobs[i].maxRetries
    ensures Measure(s') + 1 <= Measure(s)
  {
    JobWeightUpdate(s, s', i);
    WorkerWeightUpdate(s.workers, w, Executing(i));
  }

  lemma SameJobWeights(s: Sys, e: Event, s': Sys)
    requires AllAttemptsOk(s) && AllAttemptsOk(s') && Step(s, e, s')
    requires e.action.CreateRun? || e.action.Join? || e.action.Tick? || e.action.StrayTick? ||
      e.action.LoseReport? || e.action.Crash?
    ensures JobWeights(s') == JobWeights(s)
  {
  }

  lemma OtherStepsSpendNothing(s: Sys, e: Event, s': Sys)
    requires AllAttemptsOk(s) && AllAttemptsOk(s') && Step(s, e, s')
    requires e.action.CreateRun? || e.action.Join? || e.action.Tick? || e.action.StrayTick? ||
      e.action.LoseReport? || e.action.Crash?
    ensures Measure(s') <= Measure(s)
  {
    SameJobWeights(s, e, s');
    match e.action {
      case Join =>
        SumAppend(WorkerWeights(s.workers), 0);
        assert WorkerWeights(s'.workers) == WorkerWeights(s.workers) + [0];
      case LoseReport(w) => WorkerWeightUpdate(s.workers, w, Idle);
      case Crash(w) => WorkerWeightUpdate(s.workers, w, Dead);
      case _ =>
    }
  }

  lemma WorkSpendsWeight(s: Sys, e: Event, s': Sys)
    requires AllAttemptsOk(s) && AllAttemptsOk(s') && Step(s, e, s') && !e.action.InsertJob?
    ensures Measure(s') + (if IsWork(s, e) then 1 else 0) <= Measure(s)
  {
    match e.action {
      case ClaimJob(w, i, _) => ClaimSpendsWeight(s, w, i, s');
      case Succeed(w) => ReportSpendsWeight(s, w, s');
      case Fail(w, _) => ReportSpendsWeight(s, w, s');
      case ReclaimStuck => ReclaimSpendsWeight(s, e, s');
      case InsertJob(_) =>
      case _ => OtherStepsSpendNothing(s, e, s');
    }
  }

  lemma LosingSpendsWeight(s: Sys, e: Event, s': Sys)
    requires AllAttemptsOk(s) && AllAttemptsOk(s') && Step(s, e, s') && e.action.LoseReport?
    ensures Measure(s') < Measure(s)
  {
    SameJobWeights(s, e, s');
    WorkerWeightUpdate(s.workers, e.action.worker, Idle);
  }

  ghost function WorkDone(states: seq<Sys>, events: seq<Event>, k: nat): nat
    requires |states| == |events| + 1 && k <= |events|
  {
    if k == 0 then 0
    else WorkDone(states, events, k - 1) + if IsWork(states[k - 1], events[k - 1]) then 1 else 0
  }

  /** Without new jobs, the claims, reports and effective reclaims still possible are bounded by the measure. */
  lemma {:induction false} WorkIsFinite(states: seq<Sys>, events: seq<Event>, k: nat)
    requires IsRun(states, events) && AllAttemptsOk(states[0]) && k <= |events|
    requires forall e :: e in events ==> !e.action.InsertJob?
    ensures AllAttemptsOk(states[k])
    ensures WorkDone(states, events, k) + Measure(states[k]) <= Measure(states[0])
  {
    if k > 0 {
      WorkIsFinite(states, events, k - 1);
      assert StepAt(states, events, k - 1);
      StepKeepsAttemptsOk(states[k - 1], events[k - 1], states[k]);
      assert events[k - 1] in events;
      WorkSpendsWeight(states[k - 1], events[k - 1], states[k]);
    }
  }

  lemma {:induction false} UniformSum(a: seq<nat>, x: nat)
    requires forall k :: 0 <= k < |a| ==> a[k] == x
    ensures Sum(a) == |a| * x
  {
    if a != [] { UniformSum(a[..|a| - 1], x); }
  }

  /** n newly enqueued jobs with the default limit of 3 retries allow at most 12 n steps of work. */
  lemma FreshJobsAllowTwelveStepsEach(states: seq<Sys>, events: seq<Event>)
    requires IsRun(states, events) && Shape(states[0])
    requires forall e :: e in events ==> !e.action.InsertJob?
    requires forall j :: j in states[0].db.jobs ==> IsNew(j) && j.maxRetries == 3
    requires forall c :: c in states[0].claims ==> c == 0
    requires NoneExecuting(states[0])
    ensures WorkDone(states, events, |events|) <= 12 * |states[0].db.jobs|
  {
    var s := states[0];
    assert forall i :: 0 <= i < |s.db.jobs| ==> s.db.jobs[i] in s.db.jobs && s.claims[i] in s.claims;
    WorkIsFinite(states, events, |events|);
    UniformSum(JobWeights(s), 12);
    UniformSum(WorkerWeights(s.workers), 0);
  }
}
