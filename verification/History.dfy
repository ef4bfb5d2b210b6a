/** The order in which attempts were made: within a run, job after job in config order. */
module History {
  import opened JobTable
  import opened Workers
  import opened SafeRuns

  /** The claims of run r's jobs, in the order they happened. */
  function HistoryOf(log: seq<(nat, nat)>, jobs: seq<Job>, r: nat): seq<(nat, nat)> {
    if log == [] then []
    else
      var last := log[|log| - 1];
      HistoryOf(log[..|log| - 1], jobs, r) + if last.0 < |jobs| && jobs[last.0].run == r then [last] else []
  }

  function FirstAttempts(i: nat, n: nat): seq<(nat, nat)> {
    seq(n, a requires 0 <= a < n => (i, a))
  }

  /** counts[ids[0]] attempts of ids[0], then counts[ids[1]] attempts of ids[1], and so on. */
  function InSequence(ids: seq<nat>, counts: seq<nat>): seq<(nat, nat)>
    requires forall a :: 0 <= a < |ids| ==> ids[a] < |counts|
  {
    if ids == [] then []
    else InSequence(ids[..|ids| - 1], counts) + FirstAttempts(ids[|ids| - 1], counts[ids[|ids| - 1]])
  }

  ghost predicate LogOk(s: Sys) {
    |s.claims| == |s.db.jobs| &&
    (forall x :: 0 <= x < |s.log| ==> s.log[x].0 < |s.db.jobs| && s.claims[s.log[x].0] > 0) &&
    forall r: nat, ids: seq<nat> :: ListsRun(s.db.jobs, r, ids) ==>
      HistoryOf(s.log, s.db.jobs, r) == InSequence(ids, s.claims)
  }

  lemma {:induction false} HistoryDependsOnRuns(log: seq<(nat, nat)>, jobs: seq<Job>, jobs': seq<Job>, r: nat)
    requires |jobs| <= |jobs'|
    requires forall x :: 0 <= x < |log| ==> log[x].0 < |jobs| && jobs'[log[x].0].run == jobs[log[x].0].run
    ensures HistoryOf(log, jobs', r) == HistoryOf(log, jobs, r)
  {
    if log != [] { HistoryDependsOnRuns(log[..|log| - 1], jobs, jobs', r); }
  }

  lemma {:induction false} HistoryIsEmpty(log: seq<(nat, nat)>, jobs: seq<Job>, r: nat)
    requires forall x :: 0 <= x < |log| && log[x].0 < |jobs| ==> jobs[log[x].0].run != r
    ensures HistoryOf(log, jobs, r) == []
  {
    if log != [] { HistoryIsEmpty(log[..|log| - 1], jobs, r); }
  }

  lemma {:induction false} SameCountsSameSequence(ids: seq<nat>, counts: seq<nat>, counts': seq<nat>)
    requires forall a :: 0 <= a < |ids| ==>
      ids[a] < |counts| && ids[a] < |counts'| && counts'[ids[a]] == counts[ids[a]]
    ensures InSequence(ids, counts') == InSequence(ids, counts)
  {
    if ids != [] { SameCountsSameSequence(ids[..|ids| - 1], counts, counts'); }
  }

  lemma {:induction false} ZeroCountsEmptySequence(ids: seq<nat>, counts: seq<nat>)
    requires forall a :: 0 <= a < |ids| ==> ids[a] < |counts| && counts[ids[a]] == 0
    ensures InSequence(ids, counts) == []
  {
    if ids != [] { ZeroCountsEmptySequence(ids[..|ids| - 1], counts); }
  }

  /** One more attempt of ids[p], when no later job has been tried, extends the sequence at its end. */
  lemma {:induction false} NextAttemptExtends(ids: seq<nat>, counts: seq<nat>, p: nat)
    requires p < |ids| && forall a :: 0 <= a < |ids| ==> ids[a] < |counts|
    requires forall a :: 0 <= a < |ids| && a != p ==> ids[a] != ids[p]
    requires forall a :: p < a < |ids| ==> counts[ids[a]] == 0
    ensures InSequence(ids, counts[ids[p] := counts[ids[p]] + 1])
      == InSequence(ids, counts) + [(ids[p], counts[ids[p]])]
  {
    var n, c := |ids| - 1, counts[ids[p]];
    var counts' := counts[ids[p] := c + 1];
    if p == n {
      SameCountsSameSequence(ids[..n], counts, counts');
      assert FirstAttempts(ids[p], c + 1) == FirstAttempts(ids[p], c) + [(ids[p], c)];
    } else {
      NextAttemptExtends(ids[..n], counts, p);
      assert FirstAttempts(ids[n], 0) == [];
    }
  }

  lemma {:induction false} HistoryExtends(log: seq<(nat, nat)>, entry: (nat, nat), jobs: seq<Job>, r: nat)
    requires entry.0 < |jobs|
    ensures HistoryOf(log + [entry], jobs, r) ==
      HistoryOf(log, jobs, r) + if jobs[entry.0].run == r then [entry] else []
  {
    assert (log + [entry])[..|log|] == log;
  }

  /** A table with the same keys, and row i's claim count one higher. */
  lemma ClaimExtendsHistory(s: Sys, i: nat, jobs': seq<Job>, r: nat, ids: seq<nat>)
    requires JobsOk(s) && InOrder(s.db.jobs, s.claims) && LogOk(s) && Claimable(s.db.jobs, i)
    requires |jobs'| == |s.db.jobs| && forall k :: 0 <= k < |jobs'| ==> SameKey(s.db.jobs[k], jobs'[k])
    requires ListsRun(jobs', r, ids)
    ensures HistoryOf(s.log + [(i, s.claims[i])], jobs', r) == InSequence(ids, s.claims[i := s.claims[i] + 1])
  {
    SameKeysSameList(s.db.jobs, jobs', r, ids);
    HistoryExtends(s.log, (i, s.claims[i]), jobs', r);
    HistoryDependsOnRuns(s.log, s.db.jobs, jobs', r);
    if s.db.jobs[i].run == r {
      ClaimExtendsSequence(s, i, r, ids);
    } else {
      SameCountsSameSequence(ids, s.claims, s.claims[i := s.claims[i] + 1]);
    }
  }

  lemma SameKeysSameList(jobs: seq<Job>, jobs': seq<Job>, r: nat, ids: seq<nat>)
    requires |jobs'| == |jobs| && forall k :: 0 <= k < |jobs'| ==> SameKey(jobs[k], jobs'[k])
    requires ListsRun(jobs', r, ids)
    ensures ListsRun(jobs, r, ids)
  {
  }

  lemma ClaimExtendsSequence(s: Sys, i: nat, r: nat, ids: seq<nat>)
    requires JobsOk(s) && InOrder(s.db.jobs, s.claims) && Claimable(s.db.jobs, i)
    requires ListsRun(s.db.jobs, r, ids) && s.db.jobs[i].run == r
    ensures InSequence(ids, s.claims[i := s.claims[i] + 1]) == InSequence(ids, s.claims) + [(i, s.claims[i])]
  {
    var p: nat :| p < |ids| && ids[p] == i;
    forall a | p < a < |ids| ensures s.claims[ids[a]] == 0 {
      assert EarlierInRun(s.db.jobs, i, ids[a]);
    }
    NextAttemptExtends(ids, s.claims, p);
  }

  lemma InsertKeepsHistory(s: Sys, row: Job, r: nat, ids: seq<nat>)
    requires LogOk(s) && JoinsUnclaimedRun(s, row) && ListsRun(s.db.jobs + [row], r, ids)
    ensures HistoryOf(s.log, s.db.jobs + [row], r) == InSequence(ids, s.claims + [0])
  {
    var jobs' := s.db.jobs + [row];
    HistoryDependsOnRuns(s.log, s.db.jobs, jobs', r);
    if row.run == r {
      ZeroCountsEmptySequence(ids, s.claims + [0]);
      HistoryIsEmpty(s.log, s.db.jobs, r);
    } else {
      assert jobs'[|s.db.jobs|].run != r;
      assert ListsRun(s.db.jobs, r, ids);
      SameCountsSameSequence(ids, s.claims, s.claims + [0]);
    }
  }

  lemma StepKeepsHistory(s: Sys, e: Event, s': Sys, r: nat, ids: seq<nat>)
    requires JobsOk(s) && InOrder(s.db.jobs, s.claims) && LogOk(s) && Advances(s.db.jobs, s'.db.jobs)
    requires SafeStep(s, e, s') && ListsRun(s'.db.jobs, r, ids)
    ensures HistoryOf(s'.log, s'.db.jobs, r) == InSequence(ids, s'.claims)
  {
    if e.action.ClaimJob? {
      ClaimExtendsHistory(s, e.action.job, s'.db.jobs, r, ids);
    } else if e.action.InsertJob? {
      InsertKeepsHistory(s, e.action.row, r, ids);
    } else {
      OtherStepsKeepCounts(s, e, s');
      SameKeysSameList(s.db.jobs, s'.db.jobs, r, ids);
      HistoryDependsOnRuns(s.log, s.db.jobs, s'.db.jobs, r);
    }
  }

  lemma StepKeepsLog(s: Sys, e: Event, s': Sys)
    requires Safe(s) && SafeStep(s, e, s') && LogOk(s)
    ensures LogOk(s')
  {
    StepAdvances(s, e, s');
    LogEntriesStay(s, e, s');
    forall r: nat, ids: seq<nat> | ListsRun(s'.db.jobs, r, ids)
      ensures HistoryOf(s'.log, s'.db.jobs, r) == InSequence(ids, s'.claims)
    {
      StepKeepsHistory(s, e, s', r, ids);
    }
  }

  lemma OtherStepsKeepCounts(s: Sys, e: Event, s': Sys)
    requires Step(s, e, s') && !e.action.ClaimJob? && !e.action.InsertJob?
    ensures s'.log == s.log && s'.claims == s.claims && |s'.db.jobs| == |s.db.jobs|
  {
  }

  lemma LogEntriesStay(s: Sys, e: Event, s': Sys)
    requires Safe(s) && SafeStep(s, e, s') && LogOk(s)
    ensures |s'.claims| == |s'.db.jobs|
    ensures forall x :: 0 <= x < |s'.log| ==> s'.log[x].0 < |s'.db.jobs| && s'.claims[s'.log[x].0] > 0
  {
    match e.action {
      case ClaimJob(_, _, _) =>
      case InsertJob(_) =>
      case _ => OtherStepsKeepCounts(s, e, s');
    }
  }
}
