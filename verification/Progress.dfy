/** When the queue can move and when it cannot. */
module Progress {
  import opened JobTable
  import opened Workers
  import opened SafeRuns

  ghost function OpenBefore(jobs: seq<Job>, i: nat): set<nat>
    requires i < |jobs|
  {
    set p: nat | p < |jobs| && EarlierInRun(jobs, p, i) && !Terminal(jobs[p].status)
  }

  /** Behind every open job stands an open job of the same run with nothing open before it. */
  lemma {:induction false} EarliestOpen(jobs: seq<Job>, i: nat) returns (m: nat)
    requires i < |jobs| && !Terminal(jobs[i].status)
    ensures m < |jobs| && !Terminal(jobs[m].status) && Gate(jobs, m)
    ensures m == i || EarlierInRun(jobs, m, i)
    decreases |OpenBefore(jobs, i)|
  {
    if Gate(jobs, i) {
      m := i;
    } else {
      var p :| 0 <= p < |jobs| && jobs[p].run == jobs[i].run && Before(jobs[p], jobs[i]) &&
        !Terminal(jobs[p].status);
      assert p in OpenBefore(jobs, i) && p !in OpenBefore(jobs, p);
      assert OpenBefore(jobs, p) <= OpenBefore(jobs, i) - {p};
      SubsetSmaller(OpenBefore(jobs, p), OpenBefore(jobs, i) - {p});
      m := EarliestOpen(jobs, p);
    }
  }

  lemma {:induction false} SubsetSmaller(a: set<nat>, b: set<nat>)
    requires a <= b
    ensures |a| <= |b|
    decreases b
  {
    if x :| x in a {
      SubsetSmaller(a - {x}, b - {x});
    }
  }

  /** No run waits for nothing: if its open jobs are all pending, one of them can be claimed. */
  lemma WaitingRunHasClaimableJob(jobs: seq<Job>, r: nat)
    requires !AllTerminal(jobs, r)
    requires forall i :: 0 <= i < |jobs| && jobs[i].run == r && !Terminal(jobs[i].status) ==> jobs[i].status.Pending?
    ensures exists i :: 0 <= i < |jobs| && jobs[i].run == r && Claimable(jobs, i)
  {
    var i :| 0 <= i < |jobs| && jobs[i].run == r && !Terminal(jobs[i].status);
    var m := EarliestOpen(jobs, i);
    assert jobs[m].run == r && Claimable(jobs, m);
  }

  predicate NothingToDo(jobs: seq<Job>, now: Time) {
    forall i :: 0 <= i < |jobs| ==> !Claimable(jobs, i) && !Stuck(jobs[i], 30 * SECOND, now)
  }

  /** Running with no retries left for the reclaim to spend. */
  predicate Stranded(j: Job) {
    j.status.Running? && j.retryCount == j.maxRetries
  }

  predicate BehindStranded(jobs: seq<Job>, i: nat) {
    exists p: nat :: p < |jobs| && EarlierInRun(jobs, p, i) && Stranded(jobs[p])
  }

  /**
   With every heartbeat expired the queue stands still exactly when each open job either is
   stranded, because `retry_count < max_retries` shuts it out of every reclaim, or waits behind a
   stranded job of its run.
   */
  lemma QuiescentIffStranded(s: Sys, now: Time)
    requires Safe(s)
    requires forall i :: 0 <= i < |s.db.jobs| && s.db.jobs[i].status.Running? ==>
      s.db.jobs[i].heartbeatAt.value < now - 30 * SECOND
    ensures NothingToDo(s.db.jobs, now) <==>
      forall i :: 0 <= i < |s.db.jobs| && !Terminal(s.db.jobs[i].status) ==>
        Stranded(s.db.jobs[i]) || (s.db.jobs[i].status.Pending? && BehindStranded(s.db.jobs, i))
  {
    var jobs := s.db.jobs;
    if NothingToDo(jobs, now) {
      forall i | 0 <= i < |jobs| && !Terminal(jobs[i].status)
        ensures Stranded(jobs[i]) || (jobs[i].status.Pending? && BehindStranded(jobs, i))
      {
        assert Conserved(jobs[i], s.claims[i]);
        var m := EarliestOpen(jobs, i);
        assert Conserved(jobs[m], s.claims[m]) && !Claimable(jobs, m);
        assert Stranded(jobs[m]);
      }
    }
  }

  /**
   The bound of max_retries + 1 attempts is met: from any safe state in which a dead worker's job
   has one retry left, a reclaim, a claim and a failure leave it failed with that many claims.
   */
  lemma BoundIsMet(s: Sys, i: nat, v: nat, now: Time, name: string, code: int) returns (s1: Sys, s2: Sys, s3: Sys)
    requires Safe(s) && i < |s.db.jobs| && Stuck(s.db.jobs[i], 30 * SECOND, now) && SparesLiveWorkers(s, now)
    requires s.db.jobs[i].retryCount == s.db.jobs[i].maxRetries - 1
    requires v < |s.workers| && s.workers[v].Idle? && code != 0
    ensures SafeStep(s, Event(ReclaimStuck, now), s1) && SafeStep(s1, Event(ClaimJob(v, i, name), now), s2)
    ensures SafeStep(s2, Event(Fail(v, code), now), s3)
    ensures i < |s3.db.jobs| && i < |s3.claims| && s3.db.jobs[i].status.Failed?
    ensures s3.claims[i] == s3.db.jobs[i].maxRetries + 1 && s3.db.jobs[i].maxRetries == s.db.jobs[i].maxRetries
  {
    assert Conserved(s.db.jobs[i], s.claims[i]);
    s1 := Apply(s, Event(ReclaimStuck, now));
    ReclaimedIsClaimable(s, i, now);
    s2 := AfterClaim(s1, v, i, name, now);
    s3 := Apply(s2, Event(Fail(v, code), now));
  }

  /** A reclaim spends the last retry of a job and still returns it to the queue. */
  predicate SpendsLastRetry(s: Sys, e: Event, i: nat) {
    e.action.ReclaimStuck? && i < |s.db.jobs| && Stuck(s.db.jobs[i], TIMEOUT, e.now) &&
    s.db.jobs[i].retryCount == s.db.jobs[i].maxRetries - 1
  }

  /** Only such a reclaim takes a job to its retry limit without failing it. */
  lemma LimitReachedUnfailedIff(s: Sys, e: Event, s': Sys, i: nat)
    requires Safe(s) && SafeStep(s, e, s') && i < |s.db.jobs| && s.db.jobs[i].retryCount < s.db.jobs[i].maxRetries
    ensures i < |s'.db.jobs|
    ensures s'.db.jobs[i].retryCount == s'.db.jobs[i].maxRetries && !s'.db.jobs[i].status.Failed? <==>
      SpendsLastRetry(s, e, i)
  {
    assert Conserved(s.db.jobs[i], s.claims[i]);
    match e.action {
      case ClaimJob(_, _, _) =>
      case Succeed(_) =>
      case Fail(_, _) =>
      case ReclaimStuck =>
      case InsertJob(_) =>
      case _ =>
    }
  }

  predicate ClaimsJob(e: Event, i: nat) {
    e.action.ClaimJob? && e.action.job == i
  }

  predicate SpendsLastRetryAt(states: seq<Sys>, events: seq<Event>, m: nat, i: nat) {
    m < |events| && m < |states| && SpendsLastRetry(states[m], events[m], i)
  }

  ghost predicate LastRetrySpent(states: seq<Sys>, events: seq<Event>, k: nat, i: nat) {
    exists m: nat :: m < k && SpendsLastRetryAt(states, events, m, i)
  }

  predicate ClaimsJobAt(states: seq<Sys>, events: seq<Event>, n: nat, i: nat) {
    n < |events| && ClaimsJob(events[n], i) && n < |states| && i < |states[n].db.jobs|
  }

  /** Before step k, a reclaim spent job i's last retry and, later, i was claimed. */
  ghost predicate ClaimedAfterLastRetry(states: seq<Sys>, events: seq<Event>, k: nat, i: nat) {
    exists n: nat :: n < k && ClaimsJobAt(states, events, n, i) && LastRetrySpent(states, events, n, i)
  }

  /** The extra attempt is used, or open to use. */
  predicate HasExtra(j: Job, c: nat) {
    c == j.maxRetries + 1 || (j.status.Pending? && j.retryCount == j.maxRetries)
  }

  lemma ExtraStep(s: Sys, e: Event, s': Sys, i: nat)
    requires Safe(s) && SafeStep(s, e, s') && i < |s.db.jobs|
    ensures i < |s'.db.jobs| && i < |s'.claims| && s'.db.jobs[i].maxRetries == s.db.jobs[i].maxRetries
    ensures HasExtra(s'.db.jobs[i], s'.claims[i]) <==>
      HasExtra(s.db.jobs[i], s.claims[i]) || SpendsLastRetry(s, e, i)
    ensures s'.claims[i] == s'.db.jobs[i].maxRetries + 1 <==>
      s.claims[i] == s.db.jobs[i].maxRetries + 1 || (ClaimsJob(e, i) && HasExtra(s.db.jobs[i], s.claims[i]))
  {
    assert Conserved(s.db.jobs[i], s.claims[i]);
    match e.action {
      case ClaimJob(_, _, _) =>
      case Succeed(_) =>
      case Fail(_, _) =>
      case ReclaimStuck =>
      case InsertJob(_) =>
      case _ =>
    }
  }

  lemma NewJobHasNoExtra(s: Sys, e: Event, s': Sys, i: nat)
    requires Safe(s) && SafeStep(s, e, s') && |s.db.jobs| <= i < |s'.db.jobs|
    ensures i < |s'.claims| && s'.claims[i] == 0 && !HasExtra(s'.db.jobs[i], 0) && !ClaimsJob(e, i)
  {
    match e.action {
      case ClaimJob(_, _, _) =>
      case InsertJob(_) =>
      case _ =>
    }
  }

  lemma {:induction false} ExtraSoFar(states: seq<Sys>, events: seq<Event>, k: nat, i: nat)
    requires IsSafeRun(states, events) && states[0] == EMPTY && k < |states|
    ensures |states[k].claims| == |states[k].db.jobs|
    ensures i >= |states[k].db.jobs| ==>
      !LastRetrySpent(states, events, k, i) && !ClaimedAfterLastRetry(states, events, k, i)
    ensures i < |states[k].db.jobs| ==>
      (HasExtra(states[k].db.jobs[i], states[k].claims[i]) <==> LastRetrySpent(states, events, k, i))
    ensures i < |states[k].db.jobs| ==>
      (states[k].claims[i] == states[k].db.jobs[i].maxRetries + 1 <==> ClaimedAfterLastRetry(states, events, k, i))
  {
    EmptyIsSafe();
    RunsAreSafe(states, events, k);
    if k > 0 {
      ExtraSoFar(states, events, k - 1, i);
      RunsAreSafe(states, events, k - 1);
      assert SafeStepAt(states, events, k - 1);
      SpentGrows(states, events, k - 1, i);
      ClaimedGrows(states, events, k - 1, i);
      StepAdvances(states[k - 1], events[k - 1], states[k]);
      if i < |states[k - 1].db.jobs| {
        ExtraStep(states[k - 1], events[k - 1], states[k], i);
      } else if i < |states[k].db.jobs| {
        NewJobHasNoExtra(states[k - 1], events[k - 1], states[k], i);
      }
    }
  }

  lemma SpentGrows(states: seq<Sys>, events: seq<Event>, k: nat, i: nat)
    ensures LastRetrySpent(states, events, k + 1, i) <==>
      LastRetrySpent(states, events, k, i) || SpendsLastRetryAt(states, events, k, i)
  {
  }

  lemma ClaimedGrows(states: seq<Sys>, events: seq<Event>, k: nat, i: nat)
    ensures ClaimedAfterLastRetry(states, events, k + 1, i) <==>
      ClaimedAfterLastRetry(states, events, k, i) ||
      (ClaimsJobAt(states, events, k, i) && LastRetrySpent(states, events, k, i))
  {
  }

  /**
   "At most max_retries attempts" holds of a job, at any time in any safe run, if and only if no
   reclaim that found it stuck with one retry left was followed by another claim of it; else it has
   had exactly one attempt more.
   */
  lemma AttemptsWithinLimitIff(states: seq<Sys>, events: seq<Event>, k: nat, i: nat)
    requires IsSafeRun(states, events) && states[0] == EMPTY && k < |states| && i < |states[k].db.jobs|
    ensures i < |states[k].claims|
    ensures states[k].claims[i] <= states[k].db.jobs[i].maxRetries <==> !ClaimedAfterLastRetry(states, events, k, i)
    ensures states[k].claims[i] <= states[k].db.jobs[i].maxRetries + 1
  {
    EmptyIsSafe();
    RunsAreSafe(states, events, k);
    ExtraSoFar(states, events, k, i);
    assert Conserved(states[k].db.jobs[i], states[k].claims[i]);
  }

  lemma ReclaimedIsClaimable(s: Sys, i: nat, now: Time)
    requires Safe(s) && i < |s.db.jobs| && Stuck(s.db.jobs[i], 30 * SECOND, now)
    ensures Claimable(Reclaim(s.db, 30 * SECOND, now).jobs, i)
  {
    var jobs := Reclaim(s.db, 30 * SECOND, now).jobs;
    forall p: nat | p < |jobs| && jobs[p].run == jobs[i].run && Before(jobs[p], jobs[i])
      ensures Terminal(jobs[p].status)
    {
      assert EarlierInRun(s.db.jobs, p, i) && Conserved(s.db.jobs[i], s.claims[i]);
    }
  }
}
