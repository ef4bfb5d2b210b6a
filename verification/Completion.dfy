/**
 Every run comes to its end: as long as some run is not settled there is work that a worker or a
 reclaim can do, the work is finite, and when none is left each run is as the interpreter has it.
 */
module Completion {
  import opened JobTable
  import opened Workers
  import opened Attempts
  import opened SafeRuns
  import opened Interpreter

  /** The event is a claim, a report or an effective reclaim, and can happen under A2. */
  predicate CanWork(s: Sys, e: Event) {
    Enabled(s, e.action) && A2(s, e) && IsWork(s, e)
  }

  ghost predicate WorkIsLeft(s: Sys, now: Time) {
    exists e: Event :: e.now == now && CanWork(s, e)
  }

  ghost predicate AllSettled(s: Sys) {
    forall r: nat :: Settled(s, r)
  }

  predicate HeartbeatsExpired(jobs: seq<Job>, now: Time) {
    forall i :: 0 <= i < |jobs| && jobs[i].status.Running? && jobs[i].heartbeatAt.Some? ==>
      jobs[i].heartbeatAt.value < now - 30 * SECOND
  }

  /** What keeps run r from being settled. */
  lemma UnsettledHasWork(s: Sys, w: nat, now: Time, r: nat) returns (e: Event)
    requires Safe(s) && w < |s.workers| && s.workers[w].Idle? && HeartbeatsExpired(s.db.jobs, now)
    requires !Settled(s, r)
    ensures e.now == now && CanWork(s, e)
  {
    if v :| 0 <= v < |s.workers| && s.workers[v].Executing? {
      e := Event(Succeed(v), now);
    } else {
      var i: nat :| i < |s.db.jobs| && s.db.jobs[i].run == r &&
        (Claimable(s.db.jobs, i) ||
         (s.db.jobs[i].status.Running? &&
          (s.db.jobs[i].retryCount != s.db.jobs[i].maxRetries || HasLiveWorker(s, i))));
      assert Conserved(s.db.jobs[i], s.claims[i]);
      if Claimable(s.db.jobs, i) {
        e := Event(ClaimJob(w, i, ""), now);
      } else {
        e := Event(ReclaimStuck, now);
        assert Stuck(s.db.jobs[i], 30 * SECOND, now);
      }
    }
  }

  lemma WorkUnsettles(s: Sys, e: Event) returns (r: nat)
    requires Safe(s) && CanWork(s, e)
    ensures !Settled(s, r)
  {
    match e.action {
      case ClaimJob(_, i, _) => r := s.db.jobs[i].run;
      case Succeed(v) =>
        r := s.db.jobs[s.workers[v].job].run;
        assert HasLiveWorker(s, s.workers[v].job);
      case Fail(v, _) =>
        r := s.db.jobs[s.workers[v].job].run;
        assert HasLiveWorker(s, s.workers[v].job);
      case ReclaimStuck =>
        var i :| 0 <= i < |s.db.jobs| && Stuck(s.db.jobs[i], TIMEOUT, e.now);
        r := s.db.jobs[i].run;
    }
  }

  /** With an idle worker and all heartbeats expired, nothing is left to do exactly when every run is settled. */
  lemma WorkIsLeftIffUnsettled(s: Sys, w: nat, now: Time)
    requires Safe(s) && w < |s.workers| && s.workers[w].Idle? && HeartbeatsExpired(s.db.jobs, now)
    ensures WorkIsLeft(s, now) <==> !AllSettled(s)
  {
    if WorkIsLeft(s, now) {
      var e: Event :| e.now == now && CanWork(s, e);
      var _ := WorkUnsettles(s, e);
    }
    if r: nat :| !Settled(s, r) {
      var e := UnsettledHasWork(s, w, now, r);
    }
  }

  /**
   Any number of workers, to the end: in every run with A1 and A2 that gets no new jobs from state m on,
   the claims, reports and effective reclaims after m are bounded by the measure there; and in a
   state with an idle worker and expired heartbeats where no more of them can happen, every run's
   attempts, job statuses, exit codes and status are the sequential interpreter's.
   */
  lemma {:induction false} WorkEndsInAgreement(states: seq<Sys>, events: seq<Event>, fate: Fate, m: nat,
                                               w: nat, now: Time)
    requires IsSafeRun(states, events) && states[0] == EMPTY && IsFated(states, events, fate) && m <= |events|
    requires forall e :: e in events[m..] ==> !e.action.InsertJob?
    ensures AllAttemptsOk(states[m])
    ensures WorkDone(states[m..], events[m..], |events| - m) <= Measure(states[m])
    ensures var end := states[|events|];
      w < |end.workers| && end.workers[w].Idle? && HeartbeatsExpired(end.db.jobs, now) && !WorkIsLeft(end, now) ==>
        AllAgree(end, fate)
  {
    WorkIsBounded(states, events, m);
    var end := states[|events|];
    EmptyIsFaithful(fate);
    FatedRunsAreFaithful(states, events, fate, |events|);
    if w < |end.workers| && end.workers[w].Idle? && HeartbeatsExpired(end.db.jobs, now) && !WorkIsLeft(end, now) {
      WorkIsLeftIffUnsettled(end, w, now);
      SettledStateAgrees(end, fate);
    }
  }

  lemma {:induction false} WorkIsBounded(states: seq<Sys>, events: seq<Event>, m: nat)
    requires IsSafeRun(states, events) && states[0] == EMPTY && m <= |events|
    requires forall e :: e in events[m..] ==> !e.action.InsertJob?
    ensures AllAttemptsOk(states[m])
    ensures WorkDone(states[m..], events[m..], |events| - m) <= Measure(states[m])
  {
    SafeRunIsRun(states, events);
    AttemptsAreBounded(states, events, m);
    SuffixIsRun(states, events, m);
    WorkIsFinite(states[m..], events[m..], |events| - m);
  }

  lemma SuffixIsRun(states: seq<Sys>, events: seq<Event>, m: nat)
    requires IsRun(states, events) && m <= |events|
    ensures IsRun(states[m..], events[m..])
  {
    forall k: nat | k < |events[m..]| ensures StepAt(states[m..], events[m..], k) {
      assert StepAt(states, events, m + k);
    }
  }

  /** Every run of the table is as the interpreter has it. */
  ghost predicate AllAgree(s: Sys, fate: Fate) {
    forall r: nat, ids: seq<nat> :: r < |s.db.runs| && ids != [] && ListsRun(s.db.jobs, r, ids) ==>
      RunAgrees(s, r, ids, Interpret(s.db.jobs, ids, fate))
  }

  lemma SettledStateAgrees(s: Sys, fate: Fate)
    requires Faithful(s, fate) && AllSettled(s)
    ensures AllAgree(s, fate)
  {
    forall r: nat, ids: seq<nat> | r < |s.db.runs| && ids != [] && ListsRun(s.db.jobs, r, ids)
      ensures RunAgrees(s, r, ids, Interpret(s.db.jobs, ids, fate))
    {
      SettledStateMatches(s, fate, r, ids);
    }
  }
}
