/**
 The guarded execution of one deploy job, await by await, while other calls and processes act on
 the same locks: the lock is tried, the command runs only under it, and every exit gives the
 connection back.
 */
module DeployExecution {
  import opened Options
  import opened DeployLock

  /** What becomes of a query: it returns, it throws after taking effect or not, or its session ends. */
  datatype QueryOutcome = Replied | Threw(applied: bool) | SessionEnded

  datatype ExecResult = Exit(code: int) | Thrown

  /** No query of the plan fails. */
  predicate AllReplied(plan: DeployPlan) {
    plan.connects && plan.lock.Replied? && plan.upsert.Replied? && plan.delete.Replied? && plan.unlock.Replied?
  }

  const LOCK_BUSY: int := 75

  /** How the outside world behaves during one execution. */
  datatype DeployPlan = DeployPlan(
    idle: Option<nat>,           // the idle connection the pool offers, if any
    connects: bool,
    lock: QueryOutcome,
    upsert: QueryOutcome,
    logFails: bool,              // an awaited log INSERT throws: of "lock busy", or before the command starts
    exitCode: int,
    delete: QueryOutcome,
    unlock: QueryOutcome,
    others: nat -> seq<LAction>) // what others do during the n-th await

  /** The action concerns another call, and does not kill process p. */
  predicate IsByOthers(a: LAction, i: nat, p: nat) {
    match a
    case NewCall(_, _, _) => true
    case CloseIdle(_) => true
    case CrashProcess(q) => q != p
    case _ => a.call != i
  }

  /** Others may do anything but act for call i or kill its process. */
  lemma OthersMayAct(a: LAction, i: nat, p: nat)
    ensures a.NewCall? || a.CloseIdle? ==> IsByOthers(a, i, p)
    ensures a.CrashProcess? ==> (IsByOthers(a, i, p) <==> a.process != p)
    ensures !a.NewCall? && !a.CloseIdle? && !a.CrashProcess? ==> (IsByOthers(a, i, p) <==> a.call != i)
  {
  }

  /** The actions among these that can happen when their turn comes, by others than call i of process p. */
  function AfterOthers(h: Hash, s: LSys, acts: seq<LAction>, i: nat, p: nat): LSys {
    if acts == [] then s
    else
      var a, t := acts[|acts| - 1], AfterOthers(h, s, acts[..|acts| - 1], i, p);
      if LEnabled(t, a) && IsByOthers(a, i, p) then LApply(h, t, a) else t
  }

  lemma OthersLeaveCall(h: Hash, s: LSys, a: LAction, s': LSys, i: nat)
    requires i < |s.calls| && LStep(h, s, a, s') && IsByOthers(a, i, s.calls[i].process)
    ensures i < |s'.calls| && s'.calls[i] == s.calls[i]
  {
  }

  ghost predicate UsedByOther(calls: seq<Call>, x: nat, i: nat) {
    exists j: nat :: j != i && UsedBy(calls, x, j)
  }

  lemma OthersUseTheRest(h: Hash, s: LSys, i: nat)
    requires LocksSafe(h, s) && i < |s.calls| && !HasConn(s.calls[i].phase)
    ensures forall x: nat :: x < |s.conns| && s.conns[x].inUse ==> UsedByOther(s.calls, x, i)
  {
    forall x: nat | x < |s.conns| && s.conns[x].inUse ensures UsedByOther(s.calls, x, i) {
      assert UseOk(s.calls, s.conns, x);
      var j: nat :| UsedBy(s.calls, x, j);
    }
  }

  class Locks {
    var state: LSys
    ghost var awaits: seq<nat>  // the awaits at which others have acted

    ghost predicate Valid(h: Hash)
      reads this
    {
      LocksSafe(h, state)
    }

    constructor (ghost h: Hash)
      ensures Valid(h) && state == NO_CALLS && awaits == []
    {
      state, awaits := NO_CALLS, [];
    }

    method Do(h: Hash, a: LAction)
      requires Valid(h) && LEnabled(state, a)
      modifies this`state
      ensures Valid(h) && state == LApply(h, old(state), a)
    {
      StepKeepsLocksSafe(h, state, a, LApply(h, state, a));
      state := LApply(h, state, a);
    }

    /** Others act during the n-th await of call i. */
    method Await(h: Hash, plan: DeployPlan, n: nat, i: nat)
      requires Valid(h) && i < |state.calls|
      modifies this
      ensures Valid(h) && i < |state.calls| && state.calls[i] == old(state.calls[i])
      ensures state == AfterOthers(h, old(state), plan.others(n), i, old(state.calls[i]).process)
      ensures awaits == old(awaits) + [n]
    {
      var acts := plan.others(n);
      for k := 0 to |acts|
        invariant Valid(h) && i < |state.calls| && state.calls[i] == old(state.calls[i]) && awaits == old(awaits)
        invariant state == AfterOthers(h, old(state), acts[..k], i, old(state.calls[i]).process)
      {
        assert acts[..k + 1][..k] == acts[..k];
        if LEnabled(state, acts[k]) && IsByOthers(acts[k], i, state.calls[i].process) {
          OthersLeaveCall(h, state, acts[k], LApply(h, state, acts[k]), i);
          Do(h, acts[k]);
        }
      }
      assert acts[..|acts|] == acts;
      awaits := awaits + [n];
    }

    /** The pending query of call i, whose regular effect is `a`. */
    method Query(h: Hash, i: nat, a: LAction, outcome: QueryOutcome)
      requires Valid(h) && i < |state.calls| && Querying(state.calls[i]) && LEnabled(state, a)
      requires a == TryLock(i) || a == Upsert(i) || a == Delete(i) || a == Unlock(i)
      modifies this`state
      ensures Valid(h) && |state.calls| == |old(state.calls)|
      ensures outcome.Replied? ==> state == LApply(h, old(state), a)
      ensures outcome.Threw? ==>
        LEnabled(old(state), QueryFails(i, outcome.applied)) &&
        state == LApply(h, old(state), QueryFails(i, outcome.applied))
      ensures outcome.SessionEnded? ==>
        LEnabled(old(state), ConnectionLost(i)) && state == LApply(h, old(state), ConnectionLost(i))
      ensures !outcome.Replied? ==> state.calls[i] == old(state.calls[i]).(phase := Errored)
    {
      assert ConnOk(state.calls, state.conns, i);
      match outcome {
        case Replied => Do(h, a);
        case Threw(applied) => Do(h, QueryFails(i, applied));
        case SessionEnded => Do(h, ConnectionLost(i));
      }
    }

    method Connect(h: Hash, i: nat, idle: Option<nat>)
      requires Valid(h) && i < |state.calls| && state.calls[i].phase.Calling?
      modifies this`state
      ensures Valid(h) && |state.calls| == |old(state.calls)| && HasConn(state.calls[i].phase)
      ensures state.calls[i] == old(state.calls[i]).(phase := Connected(state.calls[i].phase.conn))
    {
      if idle.Some? && LEnabled(state, LAction.Connect(i, idle.value)) {
        Do(h, LAction.Connect(i, idle.value));
      } else {
        Do(h, LAction.Connect(i, |state.conns|));
      }
    }

    /** tryAcquire; false with the call Errored if it throws, Refused if the lock is taken. */
    method TryAcquire(h: Hash, i: nat, plan: DeployPlan) returns (acquired: bool)
      requires Valid(h) && i < |state.calls| && state.calls[i].phase.Calling?
      modifies this
      ensures Valid(h) && i < |state.calls|
      ensures acquired <==> state.calls[i].phase.Holding?
      ensures !acquired ==> state.calls[i].phase.Refused? || state.calls[i].phase.Errored?
      ensures plan.connects && plan.lock.Replied? && plan.upsert.Replied? ==> !state.calls[i].phase.Errored?
      ensures !plan.connects || !plan.lock.Replied? ==> state.calls[i].phase.Errored?
      ensures acquired && state.calls[i].run.Some? ==> plan.upsert.Replied?
      ensures acquired ==> awaits == old(awaits) + [1, 2]
      ensures state.calls[i] == old(state.calls[i]).(phase := state.calls[i].phase)
    {
      if !plan.connects {
        Do(h, ConnectFails(i));
        return false;
      }
      Connect(h, i, plan.idle);
      Await(h, plan, 1, i);
      Query(h, i, TryLock(i), plan.lock);
      if !state.calls[i].phase.Locked? { return false; }
      Await(h, plan, 2, i);
      if state.calls[i].run.Some? {
        Query(h, i, Upsert(i), plan.upsert);
      } else {
        Do(h, Upsert(i));
      }
      acquired := state.calls[i].phase.Holding?;
    }

    /** release(); false if it throws. */
    method Release(h: Hash, i: nat, plan: DeployPlan) returns (released: bool)
      requires Valid(h) && i < |state.calls| && state.calls[i].phase.Releasing?
      modifies this
      ensures Valid(h) && i < |state.calls|
      ensures released <==> plan.delete.Replied? && plan.unlock.Replied?
      ensures released ==> awaits == old(awaits) + [5]
      ensures if released then state.calls[i].phase.Done? else state.calls[i].phase.Errored?
      ensures state.calls[i] == old(state.calls[i]).(phase := state.calls[i].phase)
    {
      Query(h, i, Delete(i), plan.delete);
      if state.calls[i].phase.Errored? { return false; }
      Await(h, plan, 5, i);
      assert ConnOk(state.calls, state.conns, i);
      Query(h, i, Unlock(i), plan.unlock);
      released := state.calls[i].phase.Done?;
    }

    /** The command under the lock, unless a log throws before it, and then the release. */
    method RunAndRelease(h: Hash, i: nat, plan: DeployPlan)
      returns (r: ExecResult, ran: bool, ghost started: LSys)
      requires Valid(h) && i < |state.calls| && state.calls[i].phase.Holding?
      modifies this
      ensures Valid(h) && i < |state.calls|
      ensures state.calls[i] == old(state.calls[i]).(phase := state.calls[i].phase)
      ensures if plan.delete.Replied? && plan.unlock.Replied? then state.calls[i].phase.Done?
              else state.calls[i].phase.Errored?
      ensures ran == !plan.logFails
      ensures r == if state.calls[i].phase.Done? && ran then Exit(plan.exitCode) else Thrown
      ensures ran ==> LocksSafe(h, started) && i < |started.calls| && started.calls[i].phase.Executing?
      ensures ran ==> started.calls[i].environment == old(state.calls[i].environment)
      ensures r.Exit? ==> awaits == old(awaits) + [3, 4, 5]
    {
      ran := false;
      started := state;
      Await(h, plan, 3, i);
      if !plan.logFails {
        Do(h, Start(i));
        ran := true;
        started := state;
        Await(h, plan, 4, i);
      }
      Do(h, Finish(i));
      var released := Release(h, i, plan);
      r := if released && ran then Exit(plan.exitCode) else Thrown;
    }

    /**
     Executes a deploy job. Whatever queries fail and whatever others do, the call ends with its
     connection given back or closed, so that every connection in use belongs to another call. Exit
     code 75 without a command means the lock was busy, unless logging that throws; the command's own
     code is returned exactly if both queries of the release succeed, and else lost to their error.
     `started` is the state in which the command began.
     */
    method Execute(h: Hash, process: nat, environment: string, run: Option<nat>, plan: DeployPlan)
      returns (i: nat, r: ExecResult, ran: bool, ghost started: LSys)
      requires Valid(h)
      modifies this
      ensures Valid(h) && i < |state.calls|
      ensures state.calls[i].phase.Done? || state.calls[i].phase.Refused? || state.calls[i].phase.Errored?
      ensures forall x: nat :: x < |state.conns| && state.conns[x].inUse ==> UsedByOther(state.calls, x, i)
      ensures state.calls[i].phase.Refused? ==> !ran && r == if plan.logFails then Thrown else Exit(75)
      ensures state.calls[i].phase.Done? ==> ran == !plan.logFails
      ensures r.Thrown? <==> state.calls[i].phase.Errored? || plan.logFails
      ensures ran ==> (r == Exit(plan.exitCode) <==> plan.delete.Replied? && plan.unlock.Replied?)
      ensures ran && !(plan.delete.Replied? && plan.unlock.Replied?) ==> r == Thrown
      ensures AllReplied(plan) ==> !state.calls[i].phase.Errored?
      ensures r == Exit(0) ==> ran && plan.exitCode == 0 && state.calls[i].phase.Done?
      ensures state.calls[i] == Call(process, environment, run, state.calls[i].phase)
      ensures !plan.connects || !plan.lock.Replied? ==> state.calls[i].phase.Errored?
      ensures ran && r.Exit? ==> awaits == old(awaits) + [0, 1, 2, 3, 4, 5]
      ensures ran ==> !plan.logFails && (run.Some? ==> plan.upsert.Replied?)
      ensures ran ==> LocksSafe(h, started) && i < |started.calls| && started.calls[i].phase.Executing?
      ensures ran ==> started.calls[i].environment == environment
    {
      ran := false;
      started := state;
      i := |state.calls|;
      Do(h, NewCall(process, environment, run));
      Await(h, plan, 0, i);
      var acquired := TryAcquire(h, i, plan);
      if !acquired {
        OthersUseTheRest(h, state, i);
        if state.calls[i].phase.Refused? && !plan.logFails { return i, Exit(LOCK_BUSY), false, started; }
        return i, Thrown, false, started;
      }
      r, ran, started := RunAndRelease(h, i, plan);
      OthersUseTheRest(h, state, i);
    }
  }
}
