/**
 Triggering a run: one INSERT per step of the pipeline's config. All are sent at once, so they arrive
 in any order, each at its own time, and some may fail.
 */
module TriggerRun {
  import opened Options
  import opened JobTable
  import opened Workers
  import opened SafeRuns
  import opened JobStore

  datatype PipelineStep = PipelineStep(name: string, command: string, priority: Option<int>)
  datatype Stage = Stage(name: string, steps: seq<PipelineStep>)

  const DEFAULT_PRIORITY: int := 5

  /** One call of `insertNewJob`. */
  datatype Request = Request(run: nat, stage: string, stepName: string, command: string, priority: int,
                             stageOrder: int, stepOrder: int)

  function RowOf(m: Request, now: Time): Job {
    NewJob(m.run, m.stage, m.stepName, m.command, m.priority, m.stageOrder, m.stepOrder, now)
  }

  function StepRequest(stage: Stage, r: nat, x: nat, y: nat): Request
    requires y < |stage.steps|
  {
    var step := stage.steps[y];
    Request(r, stage.name, step.name, step.command, step.priority.OrElse(DEFAULT_PRIORITY), x, y)
  }

  /** The first y steps of stage number x. */
  function StageRequests(stage: Stage, r: nat, x: nat, y: nat): seq<Request>
    requires y <= |stage.steps|
  {
    seq(y, k requires 0 <= k < y => StepRequest(stage, r, x, k))
  }

  /** The first x stages. */
  function ConfigRequests(stages: seq<Stage>, r: nat, x: nat): seq<Request>
    requires x <= |stages|
  {
    if x == 0 then []
    else ConfigRequests(stages, r, x - 1) + StageRequests(stages[x - 1], r, x - 1, |stages[x - 1].steps|)
  }

  predicate ComesBefore(a: Request, b: Request) {
    a.stageOrder < b.stageOrder || (a.stageOrder == b.stageOrder && a.stepOrder < b.stepOrder)
  }

  predicate InDocumentOrder(requests: seq<Request>) {
    forall a, b :: 0 <= a < b < |requests| ==> ComesBefore(requests[a], requests[b])
  }

  predicate AreOf(requests: seq<Request>, r: nat, x: nat) {
    forall a :: 0 <= a < |requests| ==> requests[a].run == r && requests[a].stageOrder < x
  }

  /** The requests of a config are strictly ordered as its steps are in the document. */
  lemma {:induction false} ConfigIsInOrder(stages: seq<Stage>, r: nat, x: nat)
    requires x <= |stages|
    ensures AreOf(ConfigRequests(stages, r, x), r, x) && InDocumentOrder(ConfigRequests(stages, r, x))
  {
    if x > 0 {
      ConfigIsInOrder(stages, r, x - 1);
      var before, ms := ConfigRequests(stages, r, x - 1), ConfigRequests(stages, r, x);
      forall a | 0 <= a < |ms| ensures ms[a].run == r && ms[a].stageOrder < x {
        if a < |before| { assert ms[a] == before[a]; }
      }
      forall a, b | 0 <= a < b < |ms| ensures ComesBefore(ms[a], ms[b]) {
        if b < |before| { assert ms[a] == before[a] && ms[b] == before[b]; }
      }
    }
  }

  /** The number of steps in the first x stages. */
  function StepsBefore(stages: seq<Stage>, x: nat): nat
    requires x <= |stages|
  {
    if x == 0 then 0 else StepsBefore(stages, x - 1) + |stages[x - 1].steps|
  }

  /** Step (x, y) exists, and is number m in document order. */
  predicate IsStep(stages: seq<Stage>, m: nat, x: nat, y: nat) {
    x < |stages| && y < |stages[x].steps| && m == StepsBefore(stages, x) + y
  }

  lemma {:induction false} EveryRequestIsOfAStep(stages: seq<Stage>, r: nat, n: nat, m: nat) returns (x: nat, y: nat)
    requires n <= |stages| && m < |ConfigRequests(stages, r, n)|
    ensures x < n && IsStep(stages, m, x, y)
  {
    ConfigLength(stages, r, n - 1);
    if m < StepsBefore(stages, n - 1) {
      x, y := EveryRequestIsOfAStep(stages, r, n - 1, m);
    } else {
      x, y := n - 1, m - StepsBefore(stages, n - 1);
    }
  }

  /** Step (x, y) has its request right after those of all steps before it, and there are no others. */
  lemma {:induction false} StepRequestAt(stages: seq<Stage>, r: nat, n: nat, x: nat, y: nat)
    requires x < n <= |stages| && y < |stages[x].steps|
    ensures |ConfigRequests(stages, r, n)| == StepsBefore(stages, n)
    ensures StepsBefore(stages, x) + y < StepsBefore(stages, n)
    ensures var m, step := ConfigRequests(stages, r, n)[StepsBefore(stages, x) + y], stages[x].steps[y];
      m.run == r && m.stage == stages[x].name && m.stepName == step.name && m.command == step.command &&
      m.priority == (if step.priority.Some? then step.priority.value else 5) && m.stageOrder == x && m.stepOrder == y
  {
    ConfigLength(stages, r, n - 1);
    if x < n - 1 { StepRequestAt(stages, r, n - 1, x, y); }
  }

  lemma {:induction false} ConfigLength(stages: seq<Stage>, r: nat, x: nat)
    requires x <= |stages|
    ensures |ConfigRequests(stages, r, x)| == StepsBefore(stages, x)
  {
    if x > 0 { ConfigLength(stages, r, x - 1); }
  }

  // ---------- Arrival ----------

  /** The k-th INSERT to arrive is the one for step arrival[k]; those of steps left out fail. */
  predicate IsArrival(arrival: seq<nat>, n: nat) {
    (forall k :: 0 <= k < |arrival| ==> arrival[k] < n) &&
    forall k, l :: 0 <= k < l < |arrival| ==> arrival[k] != arrival[l]
  }

  function Arrived(requests: seq<Request>, arrival: seq<nat>, clock: nat -> Time): seq<Job>
    requires IsArrival(arrival, |requests|)
  {
    seq(|arrival|, k requires 0 <= k < |arrival| => RowOf(requests[arrival[k]], clock(k)))
  }

  /** The k-th row to arrive is the row of the k-th arriving request, new and of its run. */
  lemma ArrivedAt(requests: seq<Request>, arrival: seq<nat>, clock: nat -> Time, k: nat)
    requires IsArrival(arrival, |requests|) && k < |arrival|
    ensures |Arrived(requests, arrival, clock)| == |arrival| && arrival[k] < |requests|
    ensures Arrived(requests, arrival, clock)[k] == RowOf(requests[arrival[k]], clock(k))
  {
  }

  /** New rows of run r at places of their own. */
  predicate IsBatch(rows: seq<Job>, r: nat) {
    (forall a :: 0 <= a < |rows| ==> IsNew(rows[a]) && rows[a].run == r) &&
    forall a, b :: 0 <= a < b < |rows| ==> Before(rows[a], rows[b]) || Before(rows[b], rows[a])
  }

  lemma ArrivedIsBatch(stages: seq<Stage>, r: nat, arrival: seq<nat>, clock: nat -> Time)
    requires IsArrival(arrival, |ConfigRequests(stages, r, |stages|)|)
    ensures IsBatch(Arrived(ConfigRequests(stages, r, |stages|), arrival, clock), r)
  {
    var ms := ConfigRequests(stages, r, |stages|);
    var rows := Arrived(ms, arrival, clock);
    ConfigIsInOrder(stages, r, |stages|);
    forall a | 0 <= a < |rows| ensures IsNew(rows[a]) && rows[a].run == r { ArrivedAt(ms, arrival, clock, a); }
    forall a, b | 0 <= a < b < |rows| ensures Before(rows[a], rows[b]) || Before(rows[b], rows[a]) {
      ArrivedAt(ms, arrival, clock, a);
      ArrivedAt(ms, arrival, clock, b);
      assert ComesBefore(ms[arrival[a]], ms[arrival[b]]) || ComesBefore(ms[arrival[b]], ms[arrival[a]]);
    }
  }

  /** While a run's jobs are all pending the trigger leaves the run alone. */
  lemma PendingInsertKeepsRuns(db: Db, row: Job, now: Time)
    requires row.status.Pending?
    requires forall i :: 0 <= i < |db.jobs| && db.jobs[i].run == row.run ==> db.jobs[i].status.Pending?
    ensures Insert(db, row, now) == Db(db.jobs + [row], db.runs)
  {
    var jobs := db.jobs + [row];
    assert jobs[|db.jobs|] == row;
    assert !AllTerminal(jobs, row.run) && !HasStatus(jobs, row.run, Running);
    if row.run < |db.runs| {
      assert db.runs[row.run := db.runs[row.run]] == db.runs;
    }
  }

  /** What each arriving step's row holds. */
  lemma RowsOfSteps(stages: seq<Stage>, r: nat, arrival: seq<nat>, clock: nat -> Time)
    requires IsArrival(arrival, |ConfigRequests(stages, r, |stages|)|)
    ensures var rows := Arrived(ConfigRequests(stages, r, |stages|), arrival, clock);
      forall k, x: nat, y: nat :: 0 <= k < |arrival| && IsStep(stages, arrival[k], x, y) ==>
        var step := stages[x].steps[y];
        rows[k] ==
          Job(r, stages[x].name, step.name, step.command,
              if step.priority.Some? then step.priority.value else 5, x, y, clock(k), Pending, 0, 3,
              None, None, None, None, None, None)
  {
    var requests := ConfigRequests(stages, r, |stages|);
    forall k, x: nat, y: nat | 0 <= k < |arrival| && IsStep(stages, arrival[k], x, y)
      ensures var step := stages[x].steps[y];
        Arrived(requests, arrival, clock)[k] ==
          Job(r, stages[x].name, step.name, step.command,
              if step.priority.Some? then step.priority.value else 5, x, y, clock(k), Pending, 0, 3,
              None, None, None, None, None, None)
    {
      ArrivedAt(requests, arrival, clock, k);
      StepRequestAt(stages, r, |stages|, x, y);
    }
  }

  /** Rejected when an INSERT failed; the rows that arrived stay. */
  datatype TriggerResult = NotFound | Rejected(run: nat) | Created(run: nat)

  /** `pipeline` is the pipeline found, with its config's stages, if it has a config. */
  method TriggerPipelineRun(q: Store, pipeline: Option<Option<seq<Stage>>>, arrival: seq<nat>, clock: nat -> Time)
    returns (result: TriggerResult)
    requires forall j :: j in q.jobs ==> j.run < |q.runs|
    requires pipeline.Some? ==>
      var stages := pipeline.value.OrElse([]);
      IsArrival(arrival, |ConfigRequests(stages, |q.runs|, |stages|)|)
    modifies q
    ensures pipeline.None? ==> result == NotFound && q.Contents() == old(q.Contents())
    ensures pipeline.Some? ==> !result.NotFound? && result.run == old(|q.runs|)
    ensures pipeline.Some? ==>
      var requests := ConfigRequests(pipeline.value.OrElse([]), result.run, |pipeline.value.OrElse([])|);
      q.Contents() == Db(old(q.jobs) + Arrived(requests, arrival, clock), old(q.runs) + [NEW_RUN]) &&
      (result.Created? <==> forall m: nat :: m < |requests| ==> m in arrival)
    ensures pipeline.Some? ==> |q.jobs| == old(|q.jobs|) + |arrival| && q.jobs[..old(|q.jobs|)] == old(q.jobs)
    ensures pipeline.Some? ==>
      var stages := pipeline.value.OrElse([]);
      forall k, x: nat, y: nat :: 0 <= k < |arrival| && IsStep(stages, arrival[k], x, y) ==>
        var step := stages[x].steps[y];
        q.jobs[old(|q.jobs|) + k] ==
          Job(result.run, stages[x].name, step.name, step.command,
              if step.priority.Some? then step.priority.value else 5, x, y, clock(k), Pending, 0, 3,
              None, None, None, None, None, None)
  {
    if pipeline.None? { return NotFound; }
    var r := q.CreatePipelineRun();
    var stages := pipeline.value.OrElse([]);
    var requests := SendRequests(stages, r);
    ConfigIsInOrder(stages, r, |stages|);
    Receive(q, requests, r, arrival, clock);
    RowsOfSteps(stages, r, arrival, clock);
    if forall m: nat :: m < |requests| ==> m in arrival {
      result := Created(r);
    } else {
      result := Rejected(r);
    }
  }

  method SendRequests(stages: seq<Stage>, r: nat) returns (requests: seq<Request>)
    ensures requests == ConfigRequests(stages, r, |stages|)
  {
    requests := [];
    for x := 0 to |stages|
      invariant requests == ConfigRequests(stages, r, x)
    {
      for y := 0 to |stages[x].steps|
        invariant requests == ConfigRequests(stages, r, x) + StageRequests(stages[x], r, x, y)
      {
        requests := requests + [StepRequest(stages[x], r, x, y)];
      }
    }
  }

  lemma ArrivedArePending(jobs: seq<Job>, requests: seq<Request>, arrival: seq<nat>, clock: nat -> Time, n: nat, r: nat)
    requires IsArrival(arrival, |requests|) && n <= |arrival| && !HasJobs(jobs, r)
    ensures var all := jobs + Arrived(requests, arrival, clock)[..n];
      forall i :: 0 <= i < |all| && all[i].run == r ==> all[i].status.Pending?
  {
    var all := jobs + Arrived(requests, arrival, clock)[..n];
    forall i | 0 <= i < |all| && all[i].run == r ensures all[i].status.Pending? {
      assert i >= |jobs|;
      ArrivedAt(requests, arrival, clock, i - |jobs|);
    }
  }

  /** The requests that arrive, in the order in which they do. */
  method Receive(q: Store, requests: seq<Request>, r: nat, arrival: seq<nat>, clock: nat -> Time)
    requires IsArrival(arrival, |requests|) && r < |q.runs|
    requires forall a :: 0 <= a < |requests| ==> requests[a].run == r
    requires !HasJobs(q.jobs, r)
    modifies q
    ensures q.Contents() == Db(old(q.jobs) + Arrived(requests, arrival, clock), old(q.runs))
  {
    for k := 0 to |arrival|
      invariant q.Contents() == Db(old(q.jobs) + Arrived(requests, arrival, clock)[..k], old(q.runs))
    {
      ghost var rows := Arrived(requests, arrival, clock);
      var m := requests[arrival[k]];
      ArrivedAt(requests, arrival, clock, k);
      assert rows[..k + 1] == rows[..k] + [RowOf(m, clock(k))];
      ArrivedArePending(old(q.jobs), requests, arrival, clock, k, r);
      PendingInsertKeepsRuns(q.Contents(), RowOf(m, clock(k)), clock(k));
      var _ := q.InsertNewJob(m.run, m.stage, m.stepName, m.command, m.priority, m.stageOrder, m.stepOrder, clock(k));
    }
  }

  // ---------- A triggered run in the safe layer ----------

  function Appended(s: Sys, rows: seq<Job>): Sys {
    s.(db := Db(s.db.jobs + rows, s.db.runs), claims := s.claims + seq(|rows|, _ => 0))
  }

  /** A batch enters a run that has no jobs by A1 steps: appending it to any safe state is a safe run. */
  lemma {:induction false} BatchIsSafeRun(s: Sys, r: nat, rows: seq<Job>, now: Time)
    returns (states: seq<Sys>, events: seq<Event>)
    requires Safe(s) && r < |s.db.runs| && !HasJobs(s.db.jobs, r) && IsBatch(rows, r)
    ensures IsSafeRun(states, events) && states[0] == s && |events| == |rows|
    ensures forall k :: 0 <= k < |events| ==> events[k] == Event(InsertJob(rows[k]), now)
    ensures states[|rows|] == Appended(s, rows) && Safe(states[|rows|])
  {
    if rows == [] {
      states, events := [s], [];
      assert Appended(s, rows) == s;
    } else {
      var n := |rows| - 1;
      states, events := BatchIsSafeRun(s, r, rows[..n], now);
      var e := Event(InsertJob(rows[n]), now);
      AppendIsSafeStep(s, r, rows, now);
      StepKeepsSafe(states[n], e, Appended(s, rows));
      ExtendSafeRun(states, events, e, Appended(s, rows));
      states, events := states + [Appended(s, rows)], events + [e];
    }
  }

  lemma AppendIsSafeStep(s: Sys, r: nat, rows: seq<Job>, now: Time)
    requires Safe(s) && r < |s.db.runs| && !HasJobs(s.db.jobs, r) && IsBatch(rows, r) && rows != []
    ensures SafeStep(Appended(s, rows[..|rows| - 1]), Event(InsertJob(rows[|rows| - 1]), now), Appended(s, rows))
  {
    var n := |rows| - 1;
    var t := Appended(s, rows[..n]);
    PendingInsertKeepsRuns(t.db, rows[n], now);
    assert rows[..n] + [rows[n]] == rows;
    assert t.db.jobs + [rows[n]] == s.db.jobs + rows;
    assert t.claims + [0] == Appended(s, rows).claims;
  }

  lemma ExtendSafeRun(states: seq<Sys>, events: seq<Event>, e: Event, s': Sys)
    requires IsSafeRun(states, events) && SafeStep(states[|events|], e, s')
    ensures IsSafeRun(states + [s'], events + [e])
  {
    var states', events' := states + [s'], events + [e];
    forall k: nat | k < |events'| ensures SafeStepAt(states', events', k) {
      if k < |events| { assert SafeStepAt(states, events, k); }
    }
  }

  // ---------- Where each step's row is ----------

  /** When step m's INSERT arrived, looking from the k-th on. */
  function ArrivalOf(arrival: seq<nat>, m: nat, k: nat): (r: Option<nat>)
    requires k <= |arrival|
    ensures r.Some? ==> k <= r.value < |arrival| && arrival[r.value] == m
    ensures r.None? ==> forall l :: k <= l < |arrival| ==> arrival[l] != m
    decreases |arrival| - k
  {
    if k == |arrival| then None else if arrival[k] == m then Some(k) else ArrivalOf(arrival, m, k + 1)
  }

  /** The id of step m's row, if its INSERT arrived; the k-th INSERT to arrive got id rows[k]. */
  function PlaceOf(arrival: seq<nat>, rows: seq<nat>, m: nat): Option<nat>
    requires |rows| == |arrival|
  {
    match ArrivalOf(arrival, m, 0)
    case None => None
    case Some(k) => Some(rows[k])
  }

  /** The ids of the first n steps' rows, in the order of the steps. */
  function Places(arrival: seq<nat>, rows: seq<nat>, n: nat): (ids: seq<nat>)
    requires |rows| == |arrival|
    ensures forall a :: 0 <= a < |ids| ==> ids[a] in rows
  {
    if n == 0 then []
    else
      Places(arrival, rows, n - 1) + match PlaceOf(arrival, rows, n - 1) case None => [] case Some(i) => [i]
  }

  /** The first n steps that arrived. */
  function ArrivedSteps(arrival: seq<nat>, n: nat): (steps: seq<nat>) {
    if n == 0 then []
    else ArrivedSteps(arrival, n - 1) + if ArrivalOf(arrival, n - 1, 0).Some? then [n - 1] else []
  }

  predicate IsPlaceOf(arrival: seq<nat>, rows: seq<nat>, m: nat, i: nat)
    requires |rows| == |arrival|
  {
    PlaceOf(arrival, rows, m) == Some(i)
  }

  lemma {:induction false} PlacesAreOfSteps(arrival: seq<nat>, rows: seq<nat>, n: nat)
    requires |rows| == |arrival|
    ensures |Places(arrival, rows, n)| == |ArrivedSteps(arrival, n)|
    ensures forall a :: 0 <= a < |ArrivedSteps(arrival, n)| ==> ArrivedSteps(arrival, n)[a] < n
    ensures forall a :: 0 <= a < |Places(arrival, rows, n)| ==>
      IsPlaceOf(arrival, rows, ArrivedSteps(arrival, n)[a], Places(arrival, rows, n)[a])
  {
    if n > 0 {
      PlacesAreOfSteps(arrival, rows, n - 1);
      var before, steps, ids := ArrivedSteps(arrival, n - 1), ArrivedSteps(arrival, n), Places(arrival, rows, n);
      forall a | 0 <= a < |ids| ensures IsPlaceOf(arrival, rows, steps[a], ids[a]) && steps[a] < n {
        if a < |before| {
          assert steps[a] == before[a] && ids[a] == Places(arrival, rows, n - 1)[a];
          assert IsPlaceOf(arrival, rows, before[a], Places(arrival, rows, n - 1)[a]);
        }
      }
    }
  }

  predicate Increasing(steps: seq<nat>) {
    forall a, b :: 0 <= a < b < |steps| ==> steps[a] < steps[b]
  }

  lemma {:induction false} ArrivedStepsIncrease(arrival: seq<nat>, n: nat)
    ensures Increasing(ArrivedSteps(arrival, n))
    ensures forall a :: 0 <= a < |ArrivedSteps(arrival, n)| ==> ArrivedSteps(arrival, n)[a] < n
  {
    if n > 0 {
      ArrivedStepsIncrease(arrival, n - 1);
      var before, steps := ArrivedSteps(arrival, n - 1), ArrivedSteps(arrival, n);
      forall a, b | 0 <= a < b < |steps| ensures steps[a] < steps[b] {
        assert steps[a] == before[a];
        if b < |before| { assert steps[b] == before[b]; }
      }
    }
  }

  lemma {:induction false} PlacesCoverArrival(arrival: seq<nat>, rows: seq<nat>, n: nat, k: nat)
    requires |rows| == |arrival| && k < |arrival| && arrival[k] < n
    requires forall k, l :: 0 <= k < l < |arrival| ==> arrival[k] != arrival[l]
    ensures rows[k] in Places(arrival, rows, n)
  {
    if arrival[k] < n - 1 {
      PlacesCoverArrival(arrival, rows, n - 1, k);
    } else {
      assert ArrivalOf(arrival, n - 1, 0) == Some(k);
    }
  }

  predicate IsRowOf(j: Job, m: Request) {
    j.run == m.run && j.stageOrder == m.stageOrder && j.stepOrder == m.stepOrder && j.maxRetries == 3
  }

  /** The jobs of run r are the rows that arrived, the k-th of them with id rows[k]. */
  predicate Holds(jobs: seq<Job>, r: nat, requests: seq<Request>, arrival: seq<nat>, rows: seq<nat>) {
    IsArrival(arrival, |requests|) && |rows| == |arrival| &&
    (forall k :: 0 <= k < |rows| ==> rows[k] < |jobs| && IsRowOf(jobs[rows[k]], requests[arrival[k]])) &&
    forall i :: 0 <= i < |jobs| && jobs[i].run == r ==> i in rows
  }

  lemma PlacedRow(jobs: seq<Job>, r: nat, requests: seq<Request>, arrival: seq<nat>, rows: seq<nat>, a: nat)
    requires Holds(jobs, r, requests, arrival, rows) && a < |Places(arrival, rows, |requests|)|
    ensures a < |ArrivedSteps(arrival, |requests|)| && ArrivedSteps(arrival, |requests|)[a] < |requests|
    ensures Places(arrival, rows, |requests|)[a] < |jobs|
    ensures IsRowOf(jobs[Places(arrival, rows, |requests|)[a]], requests[ArrivedSteps(arrival, |requests|)[a]])
  {
    PlacesAreOfSteps(arrival, rows, |requests|);
    assert IsPlaceOf(arrival, rows, ArrivedSteps(arrival, |requests|)[a], Places(arrival, rows, |requests|)[a]);
  }

  /** In whatever order the rows arrived, their ids in document order list the run's jobs in claim order. */
  lemma PlacesListRun(jobs: seq<Job>, r: nat, requests: seq<Request>, arrival: seq<nat>, rows: seq<nat>)
    requires Holds(jobs, r, requests, arrival, rows) && InDocumentOrder(requests)
    requires forall a :: 0 <= a < |requests| ==> requests[a].run == r
    ensures ListsRun(jobs, r, Places(arrival, rows, |requests|))
  {
    PlacesInConfigOrder(jobs, r, requests, arrival, rows);
    var ids := Places(arrival, rows, |requests|);
    forall i | 0 <= i < |jobs| && jobs[i].run == r ensures i in ids {
      var k :| 0 <= k < |rows| && rows[k] == i;
      PlacesCoverArrival(arrival, rows, |requests|, k);
    }
  }

  lemma PlacesInConfigOrder(jobs: seq<Job>, r: nat, requests: seq<Request>, arrival: seq<nat>, rows: seq<nat>)
    requires Holds(jobs, r, requests, arrival, rows) && InDocumentOrder(requests)
    requires forall a :: 0 <= a < |requests| ==> requests[a].run == r
    ensures InConfigOrder(jobs, r, Places(arrival, rows, |requests|))
  {
    var ids, steps := Places(arrival, rows, |requests|), ArrivedSteps(arrival, |requests|);
    ArrivedStepsIncrease(arrival, |requests|);
    forall a | 0 <= a < |ids| ensures ids[a] < |jobs| && jobs[ids[a]].run == r {
      PlacedRow(jobs, r, requests, arrival, rows, a);
    }
    forall a, b | 0 <= a < b < |ids| ensures Before(jobs[ids[a]], jobs[ids[b]]) {
      PlacedRow(jobs, r, requests, arrival, rows, a);
      PlacedRow(jobs, r, requests, arrival, rows, b);
      assert ComesBefore(requests[steps[a]], requests[steps[b]]);
    }
  }
}
