/**
 The failure detector over timed runs. A worker beats when it claims its job and at each heartbeat;
 if it never stays silent longer than the 30 s timeout until it reports, no reclaim touches its job.
 */
module Timed {
  import opened Options
  import opened JobTable
  import opened Workers
  import opened SafeRuns
  import opened Progress
  import opened Attempts

  ghost predicate InOrderOfTime(events: seq<Event>) {
    forall a, b :: 0 <= a < b < |events| ==> events[a].now <= events[b].now
  }

  /** The event is something worker w does. */
  predicate IsBy(e: Event, w: nat) {
    match e.action
    case ClaimJob(v, _, _) => v == w
    case Tick(v) => v == w
    case Succeed(v) => v == w
    case Fail(v, _) => v == w
    case LoseReport(v) => v == w
    case Crash(v) => v == w
    case _ => false
  }

  predicate IsBeat(e: Event, w: nat) {
    IsBy(e, w) && (e.action.ClaimJob? || e.action.Tick?)
  }

  /**
   From each beat of a worker to its next act, a heartbeat, report or crash, at most `gap` passes;
   after its last act, a worker that beat last has been silent no longer than that.
   */
  ghost predicate BeatsWithin(events: seq<Event>, gap: Time) {
    (forall w: nat, a: nat, b: nat :: a < b < |events| && IsBeat(events[a], w) && IsNextAct(events, w, a, b) ==>
       events[b].now - events[a].now <= gap) &&
    (forall w: nat, a: nat :: a < |events| && IsBeat(events[a], w) && SilentAfter(events, w, a) ==>
       events[|events| - 1].now - events[a].now <= gap)
  }

  ghost predicate IsNextAct(events: seq<Event>, w: nat, a: nat, b: nat)
    requires a < b < |events|
  {
    IsBy(events[b], w) && forall c :: a < c < b ==> !IsBy(events[c], w)
  }

  ghost predicate SilentAfter(events: seq<Event>, w: nat, a: nat)
    requires a < |events|
  {
    forall c :: a < c < |events| ==> !IsBy(events[c], w)
  }

  ghost predicate IsTimedRun(states: seq<Sys>, events: seq<Event>) {
    IsA1Run(states, events) && InOrderOfTime(events)
  }

  /** While a worker executes, its last beat lies at `a` and the row's heartbeat is no older. */
  ghost predicate BeatAt(states: seq<Sys>, events: seq<Event>, k: nat, w: nat, a: nat)
    requires k < |states| <= |events| + 1
  {
    a < k && IsBeat(events[a], w) && (forall c :: a < c < k ==> !IsBy(events[c], w)) &&
    IsExecuting(states[k], w) && states[k].workers[w].job < |states[k].db.jobs| &&
    var j := states[k].db.jobs[states[k].workers[w].job];
    j.heartbeatAt.Some? && events[a].now <= j.heartbeatAt.value
  }

  ghost predicate AllBeat(states: seq<Sys>, events: seq<Event>, k: nat)
    requires k < |states| <= |events| + 1
  {
    forall w: nat :: IsExecuting(states[k], w) ==> HasBeat(states, events, k, w)
  }

  ghost predicate HasBeat(states: seq<Sys>, events: seq<Event>, k: nat, w: nat)
    requires k < |states| <= |events| + 1
  {
    exists a: nat :: BeatAt(states, events, k, w, a)
  }

  /** A heartbeat column only moves forward, except to the time of a claim. */
  lemma StepKeepsHeartbeats(s: Sys, e: Event, s': Sys, i: nat)
    requires Step(s, e, s') && i < |s.db.jobs| && s.db.jobs[i].heartbeatAt.Some?
    ensures i < |s'.db.jobs| && s'.db.jobs[i].heartbeatAt.Some?
    ensures s'.db.jobs[i].heartbeatAt == s.db.jobs[i].heartbeatAt || s'.db.jobs[i].heartbeatAt.value == e.now
  {
    match e.action {
      case ClaimJob(_, _, _) =>
      case Succeed(_) =>
      case Fail(_, _) =>
      case ReclaimStuck =>
      case InsertJob(_) =>
      case _ =>
    }
  }

  lemma OthersKeepWorker(s: Sys, e: Event, s': Sys, w: nat)
    requires Step(s, e, s') && !IsBy(e, w) && IsExecuting(s', w)
    ensures IsExecuting(s, w) && s'.workers[w] == s.workers[w]
  {
  }

  lemma OwnBeat(s: Sys, e: Event, s': Sys, w: nat)
    requires Shape(s) && Step(s, e, s') && IsBy(e, w) && IsExecuting(s', w)
    ensures IsBeat(e, w) && s'.workers[w].job < |s'.db.jobs|
    ensures s'.db.jobs[s'.workers[w].job].heartbeatAt == Some(e.now)
  {
  }

  lemma StepKeepsBeats(states: seq<Sys>, events: seq<Event>, k: nat)
    requires k < |events| && |states| == |events| + 1 && InOrderOfTime(events)
    requires Shape(states[k]) && Step(states[k], events[k], states[k + 1]) && AllBeat(states, events, k)
    ensures AllBeat(states, events, k + 1)
  {
    var s, e, s' := states[k], events[k], states[k + 1];
    forall w: nat | IsExecuting(s', w) ensures HasBeat(states, events, k + 1, w) {
      if IsBy(e, w) {
        OwnBeat(s, e, s', w);
        assert BeatAt(states, events, k + 1, w, k);
      } else {
        OthersKeepWorker(s, e, s', w);
        assert HasBeat(states, events, k, w);
        var a: nat :| BeatAt(states, events, k, w, a);
        StepKeepsHeartbeats(s, e, s', s.workers[w].job);
        assert BeatAt(states, events, k + 1, w, a);
      }
    }
  }

  lemma {:induction false} NextAct(events: seq<Event>, w: nat, a: nat, k: nat) returns (b: nat)
    requires a <= k < |events| && forall c :: a < c <= k ==> !IsBy(events[c], w)
    ensures k <= b < |events|
    ensures (b > a && IsNextAct(events, w, a, b)) || (b == |events| - 1 && SilentAfter(events, w, a))
    decreases |events| - k
  {
    if k + 1 == |events| {
      b := k;
    } else if IsBy(events[k + 1], w) {
      b := k + 1;
    } else {
      b := NextAct(events, w, a, k + 1);
    }
  }

  /** A worker whose beats are in time is spared by the reclaim at event k. */
  lemma BeatingWorkerIsSpared(states: seq<Sys>, events: seq<Event>, k: nat)
    requires k < |events| && |states| == |events| + 1 && InOrderOfTime(events) && BeatsWithin(events, 30 * SECOND)
    requires events[k].action.ReclaimStuck? && AllBeat(states, events, k)
    ensures SparesLiveWorkers(states[k], events[k].now)
  {
    forall w: nat | IsExecuting(states[k], w) && states[k].workers[w].job < |states[k].db.jobs|
      ensures !Stuck(states[k].db.jobs[states[k].workers[w].job], TIMEOUT, events[k].now)
    {
      assert HasBeat(states, events, k, w);
      var a: nat :| BeatAt(states, events, k, w, a);
      var b := NextAct(events, w, a, k);
    }
  }

  /**
   A2 from timing: every timed run whose workers beat in time is a safe run of the untimed layer,
   so everything proved there holds of it.
   */
  lemma TimedRunsAreSafe(states: seq<Sys>, events: seq<Event>)
    requires IsTimedRun(states, events) && BeatsWithin(events, 30 * SECOND) && Safe(states[0])
    requires NoneExecuting(states[0])
    ensures IsSafeRun(states, events)
  {
    forall k: nat | k < |events| ensures SafeStepAt(states, events, k) {
      SafePrefix(states, events, k);
      assert A1StepAt(states, events, k);
      if events[k].action.ReclaimStuck? { BeatingWorkerIsSpared(states, events, k); }
    }
  }

  /**
   Workers that beat every 10 s, each beat arriving up to 20 s late, keep their jobs: every reclaim
   leaves the row and the worker of every attempt under way as they are.
   */
  lemma TickingJobIsLeftAlone(states: seq<Sys>, events: seq<Event>, k: nat, w: nat)
    requires IsTimedRun(states, events) && BeatsWithin(events, 10 * SECOND + 20 * SECOND) && Safe(states[0])
    requires NoneExecuting(states[0]) && k < |events| && events[k].action.ReclaimStuck? && IsExecuting(states[k], w)
    ensures states[k + 1].workers == states[k].workers && |states[k + 1].db.jobs| == |states[k].db.jobs|
    ensures var i := states[k].workers[w].job;
      i < |states[k].db.jobs| && states[k + 1].db.jobs[i] == states[k].db.jobs[i] &&
      states[k].db.jobs[i].status.Running?
  {
    TimedRunsAreSafe(states, events);
    RunsAreSafe(states, events, k);
    assert SafeStepAt(states, events, k);
  }

  /** The edge: a reclaim changes exactly the running rows with a retry left and a heartbeat over 30 s old. */
  lemma ReclaimEdge(s: Sys, now: Time, s': Sys, i: nat)
    requires Step(s, Event(ReclaimStuck, now), s') && i < |s.db.jobs|
    ensures i < |s'.db.jobs|
    ensures var j := s.db.jobs[i];
      s'.db.jobs[i] != j <==>
        j.status == Running && j.retryCount < j.maxRetries && j.heartbeatAt.Some? &&
        j.heartbeatAt.value < now - 30 * 1_000_000
  {
  }

  lemma {:induction false} SafePrefix(states: seq<Sys>, events: seq<Event>, k: nat)
    requires IsTimedRun(states, events) && Safe(states[0]) && k < |states|
    requires NoneExecuting(states[0])
    ensures Shape(states[k]) && AllBeat(states, events, k)
  {
    if k > 0 {
      SafePrefix(states, events, k - 1);
      assert A1StepAt(states, events, k - 1);
      StepKeepsShape(states[k - 1], events[k - 1], states[k]);
      StepKeepsBeats(states, events, k - 1);
    }
  }

  // ---------- Recovery of a dead worker's job ----------

  /** The event brings a heartbeat for row i. */
  predicate BeatsRow(s: Sys, e: Event, i: nat) {
    (e.action.Tick? && IsExecuting(s, e.action.worker) && s.workers[e.action.worker].job == i) ||
    (e.action.StrayTick? && e.action.job == i)
  }

  /** Row i is running, its worker gone, and no heartbeat for it is under way at or after event m. */
  ghost predicate Abandoned(states: seq<Sys>, events: seq<Event>, m: nat, i: nat)
    requires m < |states| == |events| + 1
  {
    i < |states[m].db.jobs| && states[m].db.jobs[i].status.Running? && HasNoWorker(states[m], i) &&
    forall c :: m <= c < |events| ==> !BeatsRow(states[c], events[c], i)
  }

  predicate HasNoWorker(s: Sys, i: nat) {
    forall w :: 0 <= w < |s.workers| && s.workers[w].Executing? ==> s.workers[w].job != i
  }

  lemma AbandonedRowStands(s: Sys, e: Event, s': Sys, i: nat)
    requires Step(s, e, s') && i < |s.db.jobs| && s.db.jobs[i].status.Running? && HasNoWorker(s, i)
    requires !BeatsRow(s, e, i) && (e.action.ReclaimStuck? ==> !Stuck(s.db.jobs[i], TIMEOUT, e.now))
    ensures i < |s'.db.jobs| && s'.db.jobs[i] == s.db.jobs[i] && HasNoWorker(s', i)
  {
    match e.action {
      case ClaimJob(_, _, _) =>
      case Succeed(_) =>
      case Fail(_, _) =>
      case ReclaimStuck =>
      case InsertJob(_) =>
      case _ =>
    }
  }

  /** Event k is a reclaim later than t. */
  predicate ReclaimAfter(e: Event, t: Time) {
    e.action.ReclaimStuck? && e.now > t
  }

  lemma {:induction false} AbandonedRowWaits(states: seq<Sys>, events: seq<Event>, m: nat, k: nat, i: nat, h: Time)
    requires IsRun(states, events) && m <= k < |states| && Abandoned(states, events, m, i)
    requires states[m].db.jobs[i].heartbeatAt == Some(h)
    requires forall c :: m <= c < k ==> !ReclaimAfter(events[c], h + 30 * SECOND)
    ensures i < |states[k].db.jobs| && states[k].db.jobs[i] == states[m].db.jobs[i] && HasNoWorker(states[k], i)
  {
    if m < k {
      AbandonedRowWaits(states, events, m, k - 1, i, h);
      assert StepAt(states, events, k - 1);
      assert !ReclaimAfter(events[k - 1], h + 30 * SECOND);
      AbandonedRowStands(states[k - 1], events[k - 1], states[k], i);
    }
  }

  /** Some reclaim happens in (t, t + interval]. */
  ghost predicate ReclaimWithin(events: seq<Event>, interval: Time, t: Time) {
    exists c :: 0 <= c < |events| && ReclaimAfter(events[c], t) && events[c].now <= t + interval
  }

  ghost predicate ReclaimsEvery(events: seq<Event>, interval: Time, from: Time) {
    events != [] &&
    forall t :: from <= t && t + interval <= events[|events| - 1].now ==> ReclaimWithin(events, interval, t)
  }

  lemma {:induction false} FirstReclaimAfter(events: seq<Event>, t: Time, c: nat) returns (f: nat)
    requires c < |events| && ReclaimAfter(events[c], t)
    ensures f <= c && ReclaimAfter(events[f], t) && forall b :: 0 <= b < f ==> !ReclaimAfter(events[b], t)
    decreases c
  {
    f := c;
    if b :| 0 <= b < c && ReclaimAfter(events[b], t) {
      f := FirstReclaimAfter(events, t, b);
    }
  }

  /** A reclaim at time t has nothing to do for the row. */
  predicate PassedOver(j: Job, t: Time) {
    !j.status.Running? || j.retryCount >= j.maxRetries || j.heartbeatAt.None? || j.heartbeatAt.value >= t - TIMEOUT
  }

  lemma StepKeepsPassedOver(s: Sys, e: Event, s': Sys, i: nat, t: Time)
    requires Step(s, e, s') && i < |s'.db.jobs| && t <= e.now
    requires (i < |s.db.jobs| ==> PassedOver(s.db.jobs[i], t)) || (e.action.ReclaimStuck? && t == e.now)
    ensures PassedOver(s'.db.jobs[i], t)
  {
    match e.action {
      case ClaimJob(_, _, _) =>
      case Succeed(_) =>
      case Fail(_, _) =>
      case ReclaimStuck =>
      case InsertJob(_) =>
      case _ =>
    }
  }

  lemma {:induction false} ReclaimPassesOver(states: seq<Sys>, events: seq<Event>, c: nat, k: nat, i: nat)
    requires IsRun(states, events) && InOrderOfTime(events) && c < k < |states|
    requires events[c].action.ReclaimStuck? && i < |states[k].db.jobs|
    ensures PassedOver(states[k].db.jobs[i], events[c].now)
    decreases k
  {
    assert StepAt(states, events, k - 1);
    if c < k - 1 && i < |states[k - 1].db.jobs| { ReclaimPassesOver(states, events, c, k - 1, i); }
    StepKeepsPassedOver(states[k - 1], events[k - 1], states[k], i, events[c].now);
  }

  /** A job that could be reclaimed by its heartbeat h saw no reclaim later than h + 30 s so far. */
  lemma NoReclaimSoFar(states: seq<Sys>, events: seq<Event>, m: nat, i: nat, h: Time)
    requires IsRun(states, events) && InOrderOfTime(events) && m < |states| && i < |states[m].db.jobs|
    requires states[m].db.jobs[i].status.Running? && states[m].db.jobs[i].heartbeatAt == Some(h)
    requires states[m].db.jobs[i].retryCount < states[m].db.jobs[i].maxRetries
    ensures forall c :: 0 <= c < m ==> !ReclaimAfter(events[c], h + 30 * SECOND)
  {
    forall c: nat | c < m ensures !ReclaimAfter(events[c], h + 30 * SECOND) {
      if events[c].action.ReclaimStuck? { ReclaimPassesOver(states, events, c, m, i); }
    }
  }

  /**
   An abandoned job with a retry to spare and last heartbeat h is pending again right after the
   first reclaim later than h + 30 s; if reclaims come at least every 15 s, that is by h + 45 s.
   */
  lemma AbandonedJobRecovers(states: seq<Sys>, events: seq<Event>, m: nat, i: nat, h: Time) returns (f: nat)
    requires IsRun(states, events) && InOrderOfTime(events) && m < |states| && Abandoned(states, events, m, i)
    requires states[m].db.jobs[i].heartbeatAt == Some(h)
    requires states[m].db.jobs[i].retryCount < states[m].db.jobs[i].maxRetries
    requires ReclaimsEvery(events, 15 * SECOND, h) && h + 45 * SECOND <= events[|events| - 1].now
    ensures m <= f < |events| && ReclaimAfter(events[f], h + 30 * SECOND)
    ensures forall c :: 0 <= c < f ==> !ReclaimAfter(events[c], h + 30 * SECOND)
    ensures events[f].now <= h + 45 * SECOND
    ensures i < |states[f].db.jobs| && states[f].db.jobs[i].status.Running?
    ensures i < |states[f + 1].db.jobs| && states[f + 1].db.jobs[i].status.Pending?
    ensures states[f + 1].db.jobs[i].retryCount == states[m].db.jobs[i].retryCount + 1
  {
    NoReclaimSoFar(states, events, m, i, h);
    assert ReclaimWithin(events, 15 * SECOND, h + 30 * SECOND);
    var c :| 0 <= c < |events| && ReclaimAfter(events[c], h + 30 * SECOND) &&
      events[c].now <= h + 45 * SECOND;
    f := FirstReclaimAfter(events, h + 30 * SECOND, c);
    AbandonedRowWaits(states, events, m, f, i, h);
    assert StepAt(states, events, f);
  }

  // ---------- Stranded jobs ----------

  lemma StrandedRowStands(s: Sys, e: Event, s': Sys, i: nat)
    requires Step(s, e, s') && i < |s.db.jobs| && Stranded(s.db.jobs[i]) && HasNoWorker(s, i)
    ensures i < |s'.db.jobs| && Stranded(s'.db.jobs[i]) && HasNoWorker(s', i)
    ensures s'.db.jobs[i].run == s.db.jobs[i].run
  {
    match e.action {
      case ClaimJob(_, _, _) =>
      case Succeed(_) =>
      case Fail(_, _) =>
      case ReclaimStuck =>
      case InsertJob(_) =>
      case _ =>
    }
  }

  /**
   A job whose worker is gone while its retries are used up is lost: in every interleaving it stays
   running, without a worker, and its run stays running, for ever.
   */
  lemma {:induction false} StrandedJobStays(states: seq<Sys>, events: seq<Event>, m: nat, k: nat, i: nat)
    requires IsRun(states, events) && states[0] == EMPTY && m <= k < |states|
    requires i < |states[m].db.jobs| && Stranded(states[m].db.jobs[i]) && HasNoWorker(states[m], i)
    ensures i < |states[k].db.jobs| && Stranded(states[k].db.jobs[i]) && HasNoWorker(states[k], i)
    ensures states[k].db.jobs[i].run == states[m].db.jobs[i].run < |states[k].db.runs|
    ensures states[k].db.runs[states[k].db.jobs[i].run].status.Running?
    decreases k
  {
    if m < k {
      StrandedJobStays(states, events, m, k - 1, i);
      assert StepAt(states, events, k - 1);
      StrandedRowStands(states[k - 1], events[k - 1], states[k], i);
    }
    RunsAlwaysInStep(states, events, k);
    assert RunInStep(states[k].db, states[k].db.jobs[i].run);
    assert HasStatus(states[k].db.jobs, states[k].db.jobs[i].run, Running);
  }

  /** Job i is found no longer running at some state after m. */
  ghost predicate LeavesRunning(states: seq<Sys>, m: nat, i: nat) {
    exists k: nat :: m < k < |states| && i < |states[k].db.jobs| && !states[k].db.jobs[i].status.Running?
  }

  /**
   With reclaims every 15 s, a dead worker's job recovers if and only if it had a retry to spare;
   otherwise nothing ever moves it or finishes its run.
   */
  lemma RecoversIffRetryLeft(states: seq<Sys>, events: seq<Event>, m: nat, i: nat, h: Time)
    requires IsRun(states, events) && states[0] == EMPTY && InOrderOfTime(events)
    requires m < |states| && Abandoned(states, events, m, i) && states[m].db.jobs[i].heartbeatAt == Some(h)
    requires ReclaimsEvery(events, 15 * SECOND, h) && h + 45 * SECOND <= events[|events| - 1].now
    ensures LeavesRunning(states, m, i) <==> states[m].db.jobs[i].retryCount < states[m].db.jobs[i].maxRetries
  {
    AttemptsAreBounded(states, events, m);
    assert AttemptsOk(states[m].db.jobs[i], states[m].claims[i]);
    if states[m].db.jobs[i].retryCount < states[m].db.jobs[i].maxRetries {
      var f := AbandonedJobRecovers(states, events, m, i, h);
      assert !states[f + 1].db.jobs[i].status.Running?;
    } else if LeavesRunning(states, m, i) {
      var k: nat :| m < k < |states| && i < |states[k].db.jobs| && !states[k].db.jobs[i].status.Running?;
      StrandedJobStays(states, events, m, k, i);
    }
  }
}
