/**
 From a pipeline's config to the end of its run: in whatever order the steps' rows arrive and whatever
 the workers do, the run goes as if its steps were executed one after the other, in document order.
 */
module ConfigRuns {
  import opened Options
  import opened JobTable
  import opened Workers
  import opened SafeRuns
  import opened TriggerRun
  import opened History
  import opened Interpreter

  const MAX_RETRIES: int := 3

  // ---------- The interpreter over a config ----------

  /** The id of each step's row, None if the step's INSERT failed. Steps are numbered in document order. */
  type Place = nat -> Option<nat>

  /** A step without a row is not executed. */
  function AfterStep(before: Result, place: Option<nat>, fate: Fate): Result {
    match place
    case None => before
    case Some(i) => AfterJob(before, fate, i, MAX_RETRIES)
  }

  /** The first y steps of a stage that comes after `done` steps. */
  function InterpretSteps(before: Result, stage: Stage, y: nat, done: nat, place: Place, fate: Fate): Result
    requires y <= |stage.steps|
  {
    if y == 0 then before
    else AfterStep(InterpretSteps(before, stage, y - 1, done, place, fate), place(done + y - 1), fate)
  }

  /** The first x stages. */
  function InterpretConfig(stages: seq<Stage>, x: nat, place: Place, fate: Fate): Result
    requires x <= |stages|
  {
    if x == 0 then Result([], [], [])
    else InterpretSteps(InterpretConfig(stages, x - 1, place, fate), stages[x - 1], |stages[x - 1].steps|,
                        StepsBefore(stages, x - 1), place, fate)
  }

  /** The first n steps, stages aside. */
  function InterpretFirst(n: nat, place: Place, fate: Fate): Result {
    if n == 0 then Result([], [], []) else AfterStep(InterpretFirst(n - 1, place, fate), place(n - 1), fate)
  }

  lemma {:induction false} StepsAreNext(done: nat, stage: Stage, y: nat, place: Place, fate: Fate)
    requires y <= |stage.steps|
    ensures InterpretFirst(done + y, place, fate) ==
      InterpretSteps(InterpretFirst(done, place, fate), stage, y, done, place, fate)
  {
    if y > 0 { StepsAreNext(done, stage, y - 1, place, fate); }
  }

  lemma {:induction false} ConfigIsFirst(stages: seq<Stage>, x: nat, place: Place, fate: Fate)
    requires x <= |stages|
    ensures InterpretFirst(StepsBefore(stages, x), place, fate) == InterpretConfig(stages, x, place, fate)
  {
    if x > 0 {
      ConfigIsFirst(stages, x - 1, place, fate);
      StepsAreNext(StepsBefore(stages, x - 1), stages[x - 1], |stages[x - 1].steps|, place, fate);
    }
  }

  predicate DefaultLimits(jobs: seq<Job>, ids: seq<nat>) {
    forall a :: 0 <= a < |ids| ==> ids[a] < |jobs| && jobs[ids[a]].maxRetries == MAX_RETRIES
  }

  function PlaceIn(arrival: seq<nat>, rows: seq<nat>): Place
    requires |rows| == |arrival|
  {
    (m: nat) => PlaceOf(arrival, rows, m)
  }

  lemma InterpretAppended(jobs: seq<Job>, ids: seq<nat>, i: nat, fate: Fate)
    requires i < |jobs| && forall a :: 0 <= a < |ids| ==> ids[a] < |jobs|
    ensures Interpret(jobs, ids + [i], fate) == AfterJob(Interpret(jobs, ids, fate), fate, i, jobs[i].maxRetries)
  {
    assert (ids + [i])[..|ids|] == ids;
  }

  lemma InterpretNextPlace(jobs: seq<Job>, arrival: seq<nat>, rows: seq<nat>, n: nat, fate: Fate)
    requires |rows| == |arrival| && DefaultLimits(jobs, rows)
    ensures Interpret(jobs, Places(arrival, rows, n + 1), fate) ==
      AfterStep(Interpret(jobs, Places(arrival, rows, n), fate), PlaceOf(arrival, rows, n), fate)
  {
    var before := Places(arrival, rows, n);
    match PlaceOf(arrival, rows, n) {
      case None => assert Places(arrival, rows, n + 1) == before;
      case Some(i) =>
        assert Places(arrival, rows, n + 1) == before + [i];
        InterpretAppended(jobs, before, i, fate);
    }
  }

  lemma {:induction false} PlacesAreFirst(jobs: seq<Job>, arrival: seq<nat>, rows: seq<nat>, n: nat, fate: Fate)
    requires |rows| == |arrival| && DefaultLimits(jobs, rows)
    ensures Interpret(jobs, Places(arrival, rows, n), fate) == InterpretFirst(n, PlaceIn(arrival, rows), fate)
  {
    if n > 0 {
      PlacesAreFirst(jobs, arrival, rows, n - 1, fate);
      InterpretNextPlace(jobs, arrival, rows, n - 1, fate);
      var soFar := Interpret(jobs, Places(arrival, rows, n - 1), fate);
      FirstNext(soFar, n - 1, PlaceIn(arrival, rows), PlaceOf(arrival, rows, n - 1), fate);
    }
  }

  lemma FirstNext(soFar: Result, n: nat, place: Place, i: Option<nat>, fate: Fate)
    requires soFar == InterpretFirst(n, place, fate) && i == place(n)
    ensures AfterStep(soFar, i, fate) == InterpretFirst(n + 1, place, fate)
  {
  }

  // ---------- The rows of a run ----------

  /** The rows inserted into run r, in order. */
  function InsertsOf(events: seq<Event>, r: nat): seq<Job> {
    if events == [] then []
    else
      var n := |events| - 1;
      InsertsOf(events[..n], r) + InsertOf(events[n], r)
  }

  function InsertOf(e: Event, r: nat): seq<Job> {
    if e.action.InsertJob? && e.action.row.run == r then [e.action.row] else []
  }

  /** The ids below n of run r's jobs, in order. */
  function IdsOf(jobs: seq<Job>, r: nat, n: nat): seq<nat>
    requires n <= |jobs|
  {
    if n == 0 then [] else IdsOf(jobs, r, n - 1) + if jobs[n - 1].run == r then [n - 1] else []
  }

  lemma {:induction false} SameIds(jobs: seq<Job>, jobs': seq<Job>, r: nat, n: nat)
    requires n <= |jobs| <= |jobs'| && forall i :: 0 <= i < n ==> jobs'[i].run == jobs[i].run
    ensures IdsOf(jobs', r, n) == IdsOf(jobs, r, n)
  {
    if n > 0 { SameIds(jobs, jobs', r, n - 1); }
  }

  lemma {:induction false} IdsAreComplete(jobs: seq<Job>, r: nat, n: nat)
    requires n <= |jobs|
    ensures forall i :: 0 <= i < n && jobs[i].run == r ==> i in IdsOf(jobs, r, n)
  {
    if n > 0 {
      IdsAreComplete(jobs, r, n - 1);
      forall i | 0 <= i < n && jobs[i].run == r ensures i in IdsOf(jobs, r, n) {
        if i < n - 1 { assert i in IdsOf(jobs, r, n - 1); }
      }
    }
  }

  /** The table's rows ids are the inserted rows, their place in the order unchanged. */
  predicate AreInserts(jobs: seq<Job>, ids: seq<nat>, inserts: seq<Job>) {
    |ids| == |inserts| &&
    forall k :: 0 <= k < |ids| ==> ids[k] < |jobs| && SameKey(jobs[ids[k]], inserts[k])
  }

  /** In every safe run, run r's k-th row by id is its k-th insert. */
  lemma {:induction false} RowsAreInserts(states: seq<Sys>, events: seq<Event>, k: nat, r: nat)
    requires IsSafeRun(states, events) && states[0] == EMPTY && k < |states|
    ensures AreInserts(states[k].db.jobs, IdsOf(states[k].db.jobs, r, |states[k].db.jobs|), InsertsOf(events[..k], r))
  {
    if k > 0 {
      RowsAreInserts(states, events, k - 1, r);
      EmptyIsSafe();
      StepAdvancesAt(states, events, k - 1);
      assert SafeStepAt(states, events, k - 1);
      assert events[..k][..k - 1] == events[..k - 1];
      StepExtendsRows(states[k - 1], events[k - 1], states[k], r, InsertsOf(events[..k - 1], r));
    }
  }

  lemma StepExtendsRows(s: Sys, e: Event, s': Sys, r: nat, inserts: seq<Job>)
    requires Step(s, e, s') && Advances(s.db.jobs, s'.db.jobs)
    requires AreInserts(s.db.jobs, IdsOf(s.db.jobs, r, |s.db.jobs|), inserts)
    ensures AreInserts(s'.db.jobs, IdsOf(s'.db.jobs, r, |s'.db.jobs|), inserts + InsertOf(e, r))
  {
    var n := |s.db.jobs|;
    SameIds(s.db.jobs, s'.db.jobs, r, n);
    if e.action.InsertJob? {
      assert s'.db.jobs == s.db.jobs + [e.action.row];
      assert IdsOf(s'.db.jobs, r, n + 1) ==
        IdsOf(s.db.jobs, r, n) + if e.action.row.run == r then [n] else [];
    } else {
      OnlyInsertsAddRows(s, e, s');
    }
  }

  lemma OnlyInsertsAddRows(s: Sys, e: Event, s': Sys)
    requires Step(s, e, s') && !e.action.InsertJob?
    ensures |s'.db.jobs| == |s.db.jobs|
  {
  }

  // ---------- From trigger to end ----------

  /** Run r was triggered for the config: its inserts are the requests of the steps in `arrival`, in that order. */
  ghost predicate IsTriggeredFor(events: seq<Event>, r: nat, stages: seq<Stage>, arrival: seq<nat>) {
    var requests, inserts := ConfigRequests(stages, r, |stages|), InsertsOf(events, r);
    IsArrival(arrival, |requests|) && |inserts| == |arrival| &&
    forall k :: 0 <= k < |inserts| ==> inserts[k] == RowOf(requests[arrival[k]], inserts[k].createdAt)
  }

  /** `TriggerPipelineRun` triggers its run so, when nothing comes between its INSERTs. */
  lemma ArrivedIsTriggered(events: seq<Event>, r: nat, stages: seq<Stage>, arrival: seq<nat>, clock: nat -> Time)
    requires IsArrival(arrival, |ConfigRequests(stages, r, |stages|)|)
    requires var rows := Arrived(ConfigRequests(stages, r, |stages|), arrival, clock);
      |events| == |rows| && forall k :: 0 <= k < |events| ==> events[k].action == InsertJob(rows[k])
    ensures IsTriggeredFor(events, r, stages, arrival)
  {
    var requests := ConfigRequests(stages, r, |stages|);
    ConfigIsInOrder(stages, r, |stages|);
    forall k | 0 <= k < |arrival|
      ensures Arrived(requests, arrival, clock)[k] == RowOf(requests[arrival[k]], clock(k))
    {
      ArrivedAt(requests, arrival, clock, k);
    }
    InsertsAreRows(events, r, Arrived(requests, arrival, clock));
  }

  lemma {:induction false} InsertsAreRows(events: seq<Event>, r: nat, rows: seq<Job>)
    requires |events| == |rows|
    requires forall k :: 0 <= k < |events| ==> events[k].action == InsertJob(rows[k]) && rows[k].run == r
    ensures InsertsOf(events, r) == rows
  {
    if events != [] { InsertsAreRows(events[..|events| - 1], r, rows[..|rows| - 1]); }
  }

  lemma TriggeredRunHolds(states: seq<Sys>, events: seq<Event>, r: nat, stages: seq<Stage>, arrival: seq<nat>)
    requires IsSafeRun(states, events) && states[0] == EMPTY && IsTriggeredFor(events, r, stages, arrival)
    ensures var jobs := states[|events|].db.jobs;
      Holds(jobs, r, ConfigRequests(stages, r, |stages|), arrival, IdsOf(jobs, r, |jobs|))
  {
    var jobs := states[|events|].db.jobs;
    RowsAreInserts(states, events, |events|, r);
    assert events[..|events|] == events;
    IdsAreComplete(jobs, r, |jobs|);
  }

  /**
   From trigger to end. Let run r be triggered for a config, its INSERTs arriving in any order, among any
   other statements, and some perhaps not at all; and let any number of workers do anything under
   A1 and A2, with crashes, lost reports and reclaims. The run's attempts are always a prefix of
   executing the config's inserted steps in document order, each until it exits 0 or its limit of 3
   is used up; and once the run is finished, or can never be, they are that execution, with its
   outcome.
   */
  lemma {:induction false} TriggeredRunFollowsConfig(states: seq<Sys>, events: seq<Event>, fate: Fate, r: nat,
                                                     stages: seq<Stage>, arrival: seq<nat>)
    requires IsSafeRun(states, events) && states[0] == EMPTY && IsFated(states, events, fate)
    requires IsTriggeredFor(events, r, stages, arrival) && r < |states[|events|].db.runs|
    ensures var end := states[|events|];
      var rows := IdsOf(end.db.jobs, r, |end.db.jobs|);
      |rows| == |arrival| &&
      var ids := Places(arrival, rows, StepsBefore(stages, |stages|));
      var result := InterpretConfig(stages, |stages|, PlaceIn(arrival, rows), fate);
      ListsRun(end.db.jobs, r, ids) && HistoryOf(end.log, end.db.jobs, r) <= result.log &&
      (ids != [] && (AllTerminal(end.db.jobs, r) || Settled(end, r)) ==> RunAgrees(end, r, ids, result))
  {
    var end, requests, n := states[|events|], ConfigRequests(stages, r, |stages|), StepsBefore(stages, |stages|);
    var rows := IdsOf(end.db.jobs, r, |end.db.jobs|);
    TriggeredRunHolds(states, events, r, stages, arrival);
    ConfigIsInOrder(stages, r, |stages|);
    ConfigLength(stages, r, |stages|);
    PlacesListRun(end.db.jobs, r, requests, arrival, rows);
    ScheduleIndependence(states, events, fate, r, Places(arrival, rows, n));
    PlacesAreFirst(end.db.jobs, arrival, rows, n, fate);
    ConfigIsFirst(stages, |stages|, PlaceIn(arrival, rows), fate);
  }
}
