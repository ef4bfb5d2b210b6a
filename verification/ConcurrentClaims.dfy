/**
 Claims that overlap. A claim reads a snapshot, locks the row it selects, and commits later; the
 rows that other claims hold are skipped. The gate is read from the snapshot and not read again.
 */
module ConcurrentClaims {
  import opened JobTable
  import opened Workers
  import opened SafeRuns

  // ---------- Which rows can change ----------

  /** Row i is the run's first open job: the only one a statement can move. */
  predicate AtFrontier(jobs: seq<Job>, i: nat) {
    i < |jobs| && !Terminal(jobs[i].status) && Gate(jobs, i)
  }

  /** The event's statement changes the status of row i. */
  predicate WritesStatus(s: Sys, e: Event, i: nat) {
    i < |s.db.jobs| &&
    match e.action
    case ClaimJob(_, j, _) => j == i
    case Succeed(w) => IsExecuting(s, w) && s.workers[w].job == i
    case Fail(w, _) => IsExecuting(s, w) && s.workers[w].job == i
    case ReclaimStuck => Stuck(s.db.jobs[i], TIMEOUT, e.now)
    case _ => false
  }

  lemma WritesAreAtFrontier(s: Sys, e: Event, i: nat)
    requires Safe(s) && Enabled(s, e.action) && WritesStatus(s, e, i)
    ensures AtFrontier(s.db.jobs, i)
  {
    forall p: nat | EarlierInRun(s.db.jobs, p, i) ensures Terminal(s.db.jobs[p].status) {
      if !e.action.ClaimJob? { assert s.claims[i] > 0; }
    }
  }

  /** Two statements that could run now and would change jobs of one run contend for the same row. */
  lemma OneWritableRowPerRun(states: seq<Sys>, events: seq<Event>, k: nat, e: Event, i: nat, f: Event, j: nat)
    requires IsSafeRun(states, events) && states[0] == EMPTY && k < |states|
    requires Enabled(states[k], e.action) && Enabled(states[k], f.action)
    requires WritesStatus(states[k], e, i) && WritesStatus(states[k], f, j)
    requires states[k].db.jobs[i].run == states[k].db.jobs[j].run
    ensures i == j
  {
    EmptyIsSafe();
    RunsAreSafe(states, events, k);
    var s := states[k];
    WritesAreAtFrontier(s, e, i);
    WritesAreAtFrontier(s, f, j);
    assert i == j || EarlierInRun(s.db.jobs, i, j) || EarlierInRun(s.db.jobs, j, i);
  }

  predicate NoLateJobs(jobs: seq<Job>, jobs': seq<Job>, r: nat) {
    forall j :: |jobs| <= j < |jobs'| ==> jobs'[j].run != r
  }

  /** While row i is the first open job of its run and stays open, no other job of the run changes status. */
  lemma RunFrozenWhileRowOpen(s: Sys, s': Sys, i: nat, j: nat)
    requires Safe(s) && Safe(s') && Advances(s.db.jobs, s'.db.jobs)
    requires AtFrontier(s.db.jobs, i) && !Terminal(s'.db.jobs[i].status)
    requires j < |s.db.jobs| && j != i && s.db.jobs[j].run == s.db.jobs[i].run
    ensures s'.db.jobs[j].status == s.db.jobs[j].status
  {
    if !Terminal(s.db.jobs[j].status) {
      assert EarlierInRun(s.db.jobs, i, j);
      assert EarlierInRun(s'.db.jobs, i, j);
      assert Conserved(s.db.jobs[j], s.claims[j]) && Conserved(s'.db.jobs[j], s'.claims[j]);
    }
  }

  lemma SameCountsSameSync(jobs: seq<Job>, jobs': seq<Job>, i: nat, row: Job, run: Run, now: Time)
    requires i < |jobs| <= |jobs'| && NoLateJobs(jobs, jobs', row.run)
    requires forall k :: 0 <= k < |jobs| ==> jobs'[k].run == jobs[k].run
    requires forall k :: 0 <= k < |jobs| && k != i && jobs[k].run == row.run ==> jobs'[k].status == jobs[k].status
    ensures SyncedRun(jobs[i := row], row.run, run, now) == SyncedRun(jobs'[i := row], row.run, run, now)
  {
    SameRunStatusesAgree(jobs[i := row], jobs'[i := row], row.run);
  }

  /**
   The trigger's counts are exact: a transaction that holds the lock of its run's first open row
   and writes `row` there sets the same run status whether the other rows are read as they were
   when the lock was taken (state m) or as they are when it commits (state k).
   */
  lemma TriggerCountsAreExact(states: seq<Sys>, events: seq<Event>, m: nat, k: nat,
                              i: nat, row: Job, run: Run, now: Time)
    requires IsSafeRun(states, events) && Safe(states[0]) && m <= k < |states|
    requires AtFrontier(states[m].db.jobs, i) && SameKey(states[m].db.jobs[i], row)
    requires NoLateJobs(states[m].db.jobs, states[k].db.jobs, row.run)
    requires i < |states[k].db.jobs| && !Terminal(states[k].db.jobs[i].status)
    ensures SyncedRun(states[m].db.jobs[i := row], row.run, run, now)
      == SyncedRun(states[k].db.jobs[i := row], row.run, run, now)
  {
    RunsAdvance(states, events, m, k);
    RunsAreSafe(states, events, m);
    RunsAreSafe(states, events, k);
    var jobs, jobs' := states[m].db.jobs, states[k].db.jobs;
    forall j: nat | j < |jobs| && j != i && jobs[j].run == row.run ensures jobs'[j].status == jobs[j].status {
      RunFrozenWhileRowOpen(states[m], states[k], i, j);
    }
    SameCountsSameSync(jobs, jobs', i, row, run, now);
  }

  /** A gate read from an old snapshot still holds if the row is still pending. */
  lemma OldGateStillHolds(jobs: seq<Job>, jobs': seq<Job>, i: nat)
    requires Advances(jobs, jobs') && i < |jobs| && Gate(jobs, i) && NoLateJobs(jobs, jobs', jobs[i].run)
    requires jobs'[i].status.Pending?
    ensures Claimable(jobs', i)
  {
  }

  // ---------- Lock, then commit ----------

  /** `held` maps each worker inside a claim to the row that claim has locked. */
  datatype CSys = CSys(sys: Sys, held: map<nat, nat>)

  datatype CEvent =
    | LockRow(worker: nat, job: nat, snapshot: nat)
    | CommitClaim(worker: nat, name: string, now: Time)
    | Rollback(worker: nat)
    | Other(event: Event)

  /** Rows the scan passes over: locked by another claim, or no longer pending when rechecked. */
  ghost function Skipped(snapshot: seq<Job>, c: CSys): set<nat> {
    set k: nat | k < |snapshot| && (k in c.held.Values || k >= |c.sys.db.jobs| || !c.sys.db.jobs[k].status.Pending?)
  }

  ghost predicate CStep(trace: seq<CSys>, k: nat, e: CEvent, c': CSys)
    requires k < |trace|
  {
    var c := trace[k];
    match e
    case LockRow(w, i, m) =>
      m <= k && w < |c.sys.workers| && c.sys.workers[w].Idle? && w !in c.held &&
      Selected(trace[m].sys.db.jobs, Skipped(trace[m].sys.db.jobs, c), i) &&
      NoLateJobs(trace[m].sys.db.jobs, c.sys.db.jobs, trace[m].sys.db.jobs[i].run) &&
      c' == c.(held := c.held[w := i])
    case CommitClaim(w, name, now) =>
      w in c.held && w < |c.sys.workers| && c.held[w] < |c.sys.db.jobs| && c.held[w] < |c.sys.claims| &&
      c' == CSys(AfterClaim(c.sys, w, c.held[w], name, now), c.held - {w})
    case Rollback(w) => w in c.held && c' == c.(held := c.held - {w})
    case Other(f) =>
      !f.action.ClaimJob? && SafeStep(c.sys, f, c'.sys) && c'.held == c.held &&
      (f.action.Crash? ==> f.action.worker !in c.held) &&
      (f.action.InsertJob? ==> forall w :: w in c.held && c.held[w] < |c.sys.db.jobs| ==>
         c.sys.db.jobs[c.held[w]].run != f.action.row.run)
  }

  ghost predicate CStepAt(trace: seq<CSys>, events: seq<CEvent>, k: nat) {
    k < |events| && k + 1 < |trace| && CStep(trace, k, events[k], trace[k + 1])
  }

  ghost predicate IsCRun(trace: seq<CSys>, events: seq<CEvent>) {
    |trace| == |events| + 1 && forall k: nat :: k < |events| ==> CStepAt(trace, events, k)
  }

  /** Held rows are claimable now, and no two claims hold the same one. */
  ghost predicate HeldOk(c: CSys) {
    (forall w :: w in c.held ==>
       w < |c.sys.workers| && c.sys.workers[w].Idle? && Claimable(c.sys.db.jobs, c.held[w])) &&
    (forall v, w :: v in c.held && w in c.held && v != w ==> c.held[v] != c.held[w])
  }

  /** What the atomic layer sees of a step: nothing, or one safe step. */
  ghost predicate Simulated(s: Sys, s': Sys) {
    s' == s || exists f :: SafeStep(s, f, s')
  }

  lemma OthersKeepHeldRows(c: CSys, f: Event, c': CSys)
    requires Safe(c.sys) && HeldOk(c) && SafeStep(c.sys, f, c'.sys) && c'.held == c.held
    requires !f.action.ClaimJob? && (f.action.Crash? ==> f.action.worker !in c.held)
    requires f.action.InsertJob? ==> forall w :: w in c.held ==>
      c.sys.db.jobs[c.held[w]].run != f.action.row.run
    ensures HeldOk(c')
  {
    StepAdvances(c.sys, f, c'.sys);
    forall w | w in c.held
      ensures w < |c'.sys.workers| && c'.sys.workers[w].Idle? && Claimable(c'.sys.db.jobs, c.held[w])
    {
      OthersKeepPending(c.sys, f, c'.sys, c.held[w]);
      OldGateStillHolds(c.sys.db.jobs, c'.sys.db.jobs, c.held[w]);
    }
  }

  lemma OthersKeepPending(s: Sys, f: Event, s': Sys, i: nat)
    requires Safe(s) && SafeStep(s, f, s') && !f.action.ClaimJob? && i < |s.db.jobs| && s.db.jobs[i].status.Pending?
    ensures i < |s'.db.jobs| && s'.db.jobs[i].status.Pending?
    ensures f.action.InsertJob? ==>
      NoLateJobs(s.db.jobs, s'.db.jobs, s.db.jobs[i].run) || s.db.jobs[i].run == f.action.row.run
    ensures !f.action.InsertJob? ==> |s'.db.jobs| == |s.db.jobs|
  {
  }

  lemma CommitIsSafeClaim(c: CSys, w: nat, name: string, now: Time, c': CSys)
    requires Safe(c.sys) && HeldOk(c) && w in c.held
    requires c.held[w] < |c.sys.db.jobs| && c.held[w] < |c.sys.claims|
    requires c' == CSys(AfterClaim(c.sys, w, c.held[w], name, now), c.held - {w})
    ensures SafeStep(c.sys, Event(ClaimJob(w, c.held[w], name), now), c'.sys)
    ensures HeldOk(c')
  {
    var i := c.held[w];
    StepAdvances(c.sys, Event(ClaimJob(w, i, name), now), c'.sys);
    forall v | v in c'.held
      ensures v < |c'.sys.workers| && c'.sys.workers[v].Idle? && Claimable(c'.sys.db.jobs, c'.held[v])
    {
      OldGateStillHolds(c.sys.db.jobs, c'.sys.db.jobs, c.held[v]);
    }
  }

  lemma LockKeepsHeldRows(c: CSys, w: nat, i: nat, snapshot: seq<Job>)
    requires HeldOk(c) && w < |c.sys.workers| && c.sys.workers[w].Idle?
    requires Advances(snapshot, c.sys.db.jobs) && Selected(snapshot, Skipped(snapshot, c), i)
    requires NoLateJobs(snapshot, c.sys.db.jobs, snapshot[i].run)
    ensures HeldOk(c.(held := c.held[w := i]))
  {
    assert i !in c.held.Values;
    OldGateStillHolds(snapshot, c.sys.db.jobs, i);
  }

  /**
   Any interleaving of overlapping claims is an interleaving of atomic ones: every step is a safe
   step of the atomic layer or invisible to it, although each claim trusts a gate read earlier.
   */
  lemma {:induction false} ClaimsAreAtomic(trace: seq<CSys>, events: seq<CEvent>, k: nat)
    requires IsCRun(trace, events) && Safe(trace[0].sys) && trace[0].held == map[] && k < |trace|
    ensures Safe(trace[k].sys) && HeldOk(trace[k])
    ensures k > 0 ==> Simulated(trace[k - 1].sys, trace[k].sys)
    ensures forall m :: 0 <= m <= k ==> Advances(trace[m].sys.db.jobs, trace[k].sys.db.jobs)
  {
    if k > 0 {
      ClaimsAreAtomic(trace, events, k - 1);
      assert CStepAt(trace, events, k - 1);
      CStepIsAtomic(trace, k - 1, events[k - 1], trace[k]);
      forall m | 0 <= m < k ensures Advances(trace[m].sys.db.jobs, trace[k].sys.db.jobs) {
        AdvancesTransitive(trace[m].sys.db.jobs, trace[k - 1].sys.db.jobs, trace[k].sys.db.jobs);
      }
    }
  }

  lemma CStepIsAtomic(trace: seq<CSys>, k: nat, e: CEvent, c': CSys)
    requires k < |trace| && CStep(trace, k, e, c') && Safe(trace[k].sys) && HeldOk(trace[k])
    requires forall m :: 0 <= m <= k ==> Advances(trace[m].sys.db.jobs, trace[k].sys.db.jobs)
    ensures Safe(c'.sys) && HeldOk(c') && Simulated(trace[k].sys, c'.sys)
    ensures Advances(trace[k].sys.db.jobs, c'.sys.db.jobs)
  {
    var c := trace[k];
    match e {
      case LockRow(w, i, m) => LockKeepsHeldRows(c, w, i, trace[m].sys.db.jobs);
      case CommitClaim(w, name, now) =>
        CommitIsSafeClaim(c, w, name, now, c');
        SafeStepAdvances(c.sys, Event(ClaimJob(w, c.held[w], name), now), c'.sys);
      case Rollback(w) =>
      case Other(f) =>
        OthersKeepHeldRows(c, f, c');
        SafeStepAdvances(c.sys, f, c'.sys);
    }
  }

  lemma SafeStepAdvances(s: Sys, e: Event, s': Sys)
    requires Safe(s) && SafeStep(s, e, s')
    ensures Safe(s') && Advances(s.db.jobs, s'.db.jobs) && Simulated(s, s')
  {
    StepKeepsSafe(s, e, s');
    StepAdvances(s, e, s');
  }

  /** Overlapping claims return pairwise distinct jobs, and none that a worker is executing. */
  lemma OverlappingClaimsAreDistinct(trace: seq<CSys>, events: seq<CEvent>, k: nat, v: nat, w: nat)
    requires IsCRun(trace, events) && Safe(trace[0].sys) && trace[0].held == map[] && k < |trace|
    requires v in trace[k].held && v != w
    ensures w in trace[k].held ==> trace[k].held[w] != trace[k].held[v]
    ensures IsExecuting(trace[k].sys, w) ==> trace[k].sys.workers[w].job != trace[k].held[v]
  {
    ClaimsAreAtomic(trace, events, k);
  }

  /** Claims do overlap: two workers lock two rows at once, the second by a snapshot from before the first lock. */
  lemma ClaimsOverlap(s: Sys, v: nat, w: nat, i: nat, k: nat) returns (trace: seq<CSys>, events: seq<CEvent>)
    requires v < |s.workers| && w < |s.workers| && v != w && s.workers[v].Idle? && s.workers[w].Idle?
    requires Selected(s.db.jobs, {}, i) && Selected(s.db.jobs, {i}, k)
    ensures IsCRun(trace, events) && |events| == 2 && trace[0] == CSys(s, map[])
    ensures trace[2].sys == s && trace[2].held == map[v := i, w := k]
  {
    var c0, c1, c2 := CSys(s, map[]), CSys(s, map[v := i]), CSys(s, map[v := i, w := k]);
    trace, events := [c0, c1, c2], [LockRow(v, i, 0), LockRow(w, k, 0)];
    SelectedAmongPending(s.db.jobs, {}, Skipped(s.db.jobs, c0), i);
    assert c1.held.Values == {i} by { assert c1.held[v] == i; }
    SelectedAmongPending(s.db.jobs, {i}, Skipped(s.db.jobs, c1), k);
    assert CStepAt(trace, events, 0) && CStepAt(trace, events, 1);
  }

  /** Skipping rows that are not pending besides does not change what is selected. */
  lemma SelectedAmongPending(jobs: seq<Job>, locked: set<nat>, skipped: set<nat>, i: nat)
    requires Selected(jobs, locked, i)
    requires forall k: nat :: k < |jobs| && k in skipped ==> k in locked || !jobs[k].status.Pending?
    requires forall k :: k in locked ==> k in skipped
    ensures Selected(jobs, skipped, i)
  {
  }
}
