/**
 Advisory locks that no deploy owns any more. An error path gives the connection back to the pool
 without unlocking, and the pooled session keeps the lock: exactly when, for how long, and at what
 cost to later deploys.
 */
module LockLeaks {
  import opened DeployLock

  /** Call i owns the lock, and its session took it once. */
  predicate OwnedBy(h: Hash, s: LSys, key: int, i: nat) {
    i < |s.calls| && key in s.locks && Owning(s.calls[i].phase) && Key(h, s.calls[i]) == key &&
    s.locks[key] == Holder(s.calls[i].phase.conn, 1)
  }

  /** The lock is held, but not, or not only, for a call that owns it. */
  ghost predicate Leaked(h: Hash, s: LSys, key: int) {
    key in s.locks && forall i: nat :: !OwnedBy(h, s, key, i)
  }

  ghost predicate LeakFree(h: Hash, s: LSys) {
    forall key :: !Leaked(h, s, key)
  }

  /**
   The query of a call throws while its session holds, or comes to hold, the lock: the lock query
   took effect, or the upsert or delete failed either way, or the unlock did not take effect.
   */
  predicate Leaks(h: Hash, s: LSys, a: LAction) {
    a.QueryFails? && a.call < |s.calls| &&
    var c := s.calls[a.call];
    match c.phase
    case Connected(x) => a.applied && Free(s, Key(h, c), x)
    case Locked(_) => true
    case Releasing(_) => true
    case Deleted(_) => !a.applied
    case _ => false
  }

  /** The call whose action leaks has this key and connection. */
  predicate LeaksOver(h: Hash, s: LSys, a: LAction, key: int, x: nat) {
    Leaks(h, s, a) && Key(h, s.calls[a.call]) == key && s.calls[a.call].phase.conn == x
  }

  predicate IsOpen(s: LSys, x: nat) {
    x < |s.conns| && s.conns[x].open
  }

  // ---------- What a step does to one lock and to one owner ----------

  /** A query of a call that does not own the lock takes it, granted or thrown. */
  predicate Takes(h: Hash, s: LSys, a: LAction, key: int) {
    (a.TryLock? || (a.QueryFails? && a.applied)) && a.call < |s.calls| && s.calls[a.call].phase.Connected? &&
    Key(h, s.calls[a.call]) == key && Free(s, key, s.calls[a.call].phase.conn)
  }

  /** An unlock takes effect, returned or thrown. */
  predicate Yields(h: Hash, s: LSys, a: LAction, key: int) {
    (a.Unlock? || (a.QueryFails? && a.applied)) && a.call < |s.calls| && s.calls[a.call].phase.Deleted? &&
    Key(h, s.calls[a.call]) == key
  }

  function CountOf(s: LSys, key: int): nat {
    if key in s.locks then s.locks[key].count else 0
  }

  lemma TakenLock(h: Hash, s: LSys, a: LAction, s': LSys, key: int)
    requires LStep(h, s, a, s') && Takes(h, s, a, key)
    ensures key in s'.locks && s'.locks[key] == Holder(s.calls[a.call].phase.conn, CountOf(s, key) + 1)
  {
  }

  lemma YieldedLock(h: Hash, s: LSys, a: LAction, s': LSys, key: int)
    requires LocksSafe(h, s) && LStep(h, s, a, s') && Yields(h, s, a, key)
    ensures key in s.locks && s.locks[key].conn == s.calls[a.call].phase.conn
    ensures CountOf(s', key) == s.locks[key].count - 1
    ensures key in s'.locks ==> s'.locks[key].conn == s.locks[key].conn
  {
    assert LockOk(h, s.calls, s.locks, a.call) && HolderOk(s.conns, s.locks, key);
  }

  lemma OtherLock(h: Hash, s: LSys, a: LAction, s': LSys, key: int)
    requires LocksSafe(h, s) && LStep(h, s, a, s') && !Takes(h, s, a, key) && !Yields(h, s, a, key)
    ensures key in s'.locks <==> key in s.locks && IsOpen(s', s.locks[key].conn)
    ensures key in s'.locks ==> s'.locks[key] == s.locks[key]
  {
    assert HolderOk(s.conns, s.locks, key);
    if IsMove(a) {
      var _, _ := MoveStep(h, s, a, s');
      return;
    }
    match a {
      case TryLock(i) => OtherQuery(h, s, i, key);
      case Unlock(i) => OtherQuery(h, s, i, key);
      case QueryFails(i, _) => OtherQuery(h, s, i, key);
      case _ =>
    }
  }

  /** A query touches at most the lock of its call's key, and no session. */
  lemma OtherQuery(h: Hash, s: LSys, i: nat, key: int)
    requires i < |s.calls| && Querying(s.calls[i])
    ensures QueryEffect(h, s, i).conns == s.conns && QueryEffect(h, s, i).calls == s.calls
    ensures !Takes(h, s, QueryFails(i, true), key) && !Yields(h, s, QueryFails(i, true), key) ==>
      (key in QueryEffect(h, s, i).locks <==> key in s.locks) &&
      (key in s.locks ==> QueryEffect(h, s, i).locks[key] == s.locks[key])
  {
  }

  /** A step ends the ownership of at most its own call, or of a crashed process's calls. */
  predicate EndsCall(s: LSys, a: LAction, i: nat)
    requires i < |s.calls|
  {
    match a
    case Unlock(j) => i == j
    case QueryFails(j, _) => i == j
    case ConnectionLost(j) => i == j
    case CrashProcess(p) => s.calls[i].process == p
    case _ => false
  }

  lemma OwnerAfter(h: Hash, s: LSys, a: LAction, s': LSys, i: nat)
    requires LStep(h, s, a, s') && i < |s.calls| && Owning(s.calls[i].phase)
    ensures i < |s'.calls| && Key(h, s'.calls[i]) == Key(h, s.calls[i])
    ensures Owning(s'.calls[i].phase) <==> !EndsCall(s, a, i)
    ensures Owning(s'.calls[i].phase) ==> s'.calls[i].phase.conn == s.calls[i].phase.conn
  {
    if IsMove(a) {
      var _, _ := MoveStep(h, s, a, s');
      return;
    }
    match a {
      case QueryFails(j, applied) => QueryEffectMovesNothing(h, s, j);
      case Unlock(j) => QueryEffectMovesNothing(h, s, j);
      case TryLock(j) => QueryEffectMovesNothing(h, s, j);
      case CrashProcess(_) =>
      case _ =>
    }
  }

  lemma NewOwner(h: Hash, s: LSys, a: LAction, s': LSys, i: nat)
    requires LStep(h, s, a, s') && i < |s'.calls| && Owning(s'.calls[i].phase)
    requires i < |s.calls| ==> !Owning(s.calls[i].phase)
    ensures a == TryLock(i) && Takes(h, s, a, Key(h, s'.calls[i]))
    ensures s'.calls[i].phase == Locked(s.calls[i].phase.conn)
  {
    if IsMove(a) {
      var _, _ := MoveStep(h, s, a, s');
      return;
    }
    match a {
      case QueryFails(j, applied) => QueryEffectMovesNothing(h, s, j);
      case Unlock(j) => QueryEffectMovesNothing(h, s, j);
      case _ =>
    }
  }

  // ---------- One step ----------

  lemma LeakingLeaks(h: Hash, s: LSys, a: LAction, s': LSys, key: int, x: nat)
    requires LocksSafe(h, s) && LStep(h, s, a, s') && LeaksOver(h, s, a, key, x)
    ensures Leaked(h, s', key) && s'.locks[key].conn == x && IsOpen(s', x)
  {
    var i := a.call;
    assert LockOk(h, s.calls, s.locks, i) && ConnOk(s.calls, s.conns, i) && HolderOk(s.conns, s.locks, key);
    if Takes(h, s, a, key) { TakenLock(h, s, a, s', key); } else { OtherLock(h, s, a, s', key); }
    forall j: nat ensures !OwnedBy(h, s', key, j) {
      if j < |s'.calls| && Owning(s'.calls[j].phase) { LeakingLeavesNoOwner(h, s, a, s', j); }
    }
  }

  lemma LeakingLeavesNoOwner(h: Hash, s: LSys, a: LAction, s': LSys, j: nat)
    requires LocksSafe(h, s) && LStep(h, s, a, s') && Leaks(h, s, a)
    requires j < |s'.calls| && Owning(s'.calls[j].phase)
    ensures Key(h, s'.calls[j]) != Key(h, s.calls[a.call])
  {
    if j < |s.calls| && Owning(s.calls[j].phase) {
      OwnerAfter(h, s, a, s', j);
      assert LockOk(h, s.calls, s.locks, j) && LockOk(h, s.calls, s.locks, a.call);
      assert ConnsApart(s.calls, a.call, j);
    } else {
      assert a != TryLock(j);
      NewOwner(h, s, a, s', j);
    }
  }

  /** A leaked lock outlasts every step that leaves its session open. */
  lemma LeakStays(h: Hash, s: LSys, a: LAction, s': LSys, key: int)
    requires LocksSafe(h, s) && LStep(h, s, a, s') && Leaked(h, s, key) && IsOpen(s', s.locks[key].conn)
    ensures Leaked(h, s', key) && s'.locks[key].conn == s.locks[key].conn
  {
    assert HolderOk(s.conns, s.locks, key);
    if Takes(h, s, a, key) {
      TakenLock(h, s, a, s', key);
    } else if Yields(h, s, a, key) {
      YieldedLock(h, s, a, s', key);
      assert !OwnedBy(h, s, key, a.call);
    } else {
      OtherLock(h, s, a, s', key);
    }
    forall j: nat ensures !OwnedBy(h, s', key, j) {
      if j < |s.calls| && Owning(s.calls[j].phase) {
        OwnerAfter(h, s, a, s', j);
        assert LockOk(h, s.calls, s.locks, j) && !OwnedBy(h, s, key, j);
        if Yields(h, s, a, key) && Key(h, s.calls[j]) == key { OneOwner(h, s, a.call, j); }
      } else if OwnedBy(h, s', key, j) {
        NewOwner(h, s, a, s', j);
      }
    }
  }

  lemma YieldedByOwner(h: Hash, s: LSys, a: LAction, s': LSys, key: int)
    requires LocksSafe(h, s) && LStep(h, s, a, s')
    ensures Yields(h, s, a, key) && !Leaked(h, s, key) ==> key !in s'.locks
  {
    if Yields(h, s, a, key) && !Leaked(h, s, key) {
      YieldedLock(h, s, a, s', key);
      var i: nat :| OwnedBy(h, s, key, i);
      assert LockOk(h, s.calls, s.locks, a.call) && ConnsApart(s.calls, i, a.call);
    }
  }

  lemma OwnerHasOtherSession(h: Hash, s: LSys, key: int, j: nat)
    requires LocksSafe(h, s) && key in s.locks && !Leaked(h, s, key)
    requires j < |s.calls| && s.calls[j].phase.Connected?
    ensures s.locks[key].conn != s.calls[j].phase.conn
  {
    var i: nat :| OwnedBy(h, s, key, i);
    assert ConnsApart(s.calls, i, j);
  }

  lemma TakenByTryLock(h: Hash, s: LSys, a: LAction, s': LSys, key: int)
    requires LocksSafe(h, s) && LStep(h, s, a, s')
    ensures Takes(h, s, a, key) && a.TryLock? && !Leaked(h, s, key) ==> !Leaked(h, s', key)
  {
    if Takes(h, s, a, key) && a.TryLock? && !Leaked(h, s, key) {
      TakenLock(h, s, a, s', key);
      if key in s.locks { OwnerHasOtherSession(h, s, key, a.call); }
      assert OwnedBy(h, s', key, a.call);
    }
  }

  /** Nothing else leaks: a lock is leaked by a step only over that step's own call. */
  lemma OnlyLeakingLeaks(h: Hash, s: LSys, a: LAction, s': LSys, key: int)
    requires LocksSafe(h, s) && LStep(h, s, a, s') && Leaked(h, s', key) && !Leaked(h, s, key)
    ensures LeaksOver(h, s, a, key, s'.locks[key].conn)
  {
    YieldedByOwner(h, s, a, s', key);
    TakenByTryLock(h, s, a, s', key);
    if Takes(h, s, a, key) {
      TakenLock(h, s, a, s', key);
    } else {
      OtherLock(h, s, a, s', key);
      var i: nat :| OwnedBy(h, s, key, i);
      assert !OwnedBy(h, s', key, i);
      OwnerAfter(h, s, a, s', i);
      EndedOwnerLeaks(h, s, a, s', i);
    }
  }

  lemma EndedOwnerLeaks(h: Hash, s: LSys, a: LAction, s': LSys, i: nat)
    requires LocksSafe(h, s) && LStep(h, s, a, s') && i < |s.calls| && Owning(s.calls[i].phase) && EndsCall(s, a, i)
    requires !Yields(h, s, a, Key(h, s.calls[i])) && IsOpen(s', s.calls[i].phase.conn)
    ensures LeaksOver(h, s, a, Key(h, s.calls[i]), s.calls[i].phase.conn)
  {
    assert ConnOk(s.calls, s.conns, i);
  }

  /** From leak-free locks a step leaks one if and only if its query error is of the leaking kind. */
  lemma StepLeaksIff(h: Hash, s: LSys, a: LAction, s': LSys)
    requires LocksSafe(h, s) && LStep(h, s, a, s') && LeakFree(h, s)
    ensures LeakFree(h, s') <==> !Leaks(h, s, a)
  {
    if Leaks(h, s, a) {
      LeakingLeaks(h, s, a, s', Key(h, s.calls[a.call]), s.calls[a.call].phase.conn);
    } else if key :| Leaked(h, s', key) {
      OnlyLeakingLeaks(h, s, a, s', key);
    }
  }

  // ---------- Whole runs ----------

  predicate LeaksAt(h: Hash, states: seq<LSys>, actions: seq<LAction>, m: nat) {
    m < |actions| && m < |states| && Leaks(h, states[m], actions[m])
  }

  function LeakingKey(h: Hash, states: seq<LSys>, actions: seq<LAction>, m: nat): int
    requires LeaksAt(h, states, actions, m)
  {
    Key(h, states[m].calls[actions[m].call])
  }

  function LeakingConn(h: Hash, states: seq<LSys>, actions: seq<LAction>, m: nat): nat
    requires LeaksAt(h, states, actions, m)
  {
    states[m].calls[actions[m].call].phase.conn
  }

  /** A session that is open was open ever since it was opened. */
  lemma {:induction false} OpenSince(h: Hash, states: seq<LSys>, actions: seq<LAction>, m: nat, k: nat, x: nat)
    requires IsLRun(h, states, actions) && m <= k < |states| && x < |states[m].conns| && IsOpen(states[k], x)
    ensures IsOpen(states[m], x)
    decreases k
  {
    if m < k {
      assert LStepAt(h, states, actions, k - 1);
      ConnectionsStay(h, states, actions, m, k - 1);
      OpenBefore(h, states[k - 1], actions[k - 1], states[k], x);
      OpenSince(h, states, actions, m, k - 1, x);
    }
  }

  lemma {:induction false} ConnectionsStay(h: Hash, states: seq<LSys>, actions: seq<LAction>, m: nat, k: nat)
    requires IsLRun(h, states, actions) && m <= k < |states|
    ensures |states[m].conns| <= |states[k].conns|
  {
    if m < k {
      assert LStepAt(h, states, actions, k - 1);
      ConnectionsStay(h, states, actions, m, k - 1);
      MoreConnections(h, states[k - 1], actions[k - 1], states[k]);
    }
  }

  lemma MoreConnections(h: Hash, s: LSys, a: LAction, s': LSys)
    requires LStep(h, s, a, s')
    ensures |s.conns| <= |s'.conns|
  {
  }

  lemma OpenBefore(h: Hash, s: LSys, a: LAction, s': LSys, x: nat)
    requires LStep(h, s, a, s') && x < |s.conns| && IsOpen(s', x)
    ensures IsOpen(s, x)
  {
    match a {
      case TryLock(i) => QueryEffectMovesNothing(h, s, i);
      case Unlock(i) => QueryEffectMovesNothing(h, s, i);
      case QueryFails(i, _) => QueryEffectMovesNothing(h, s, i);
      case CrashProcess(_) =>
      case _ =>
    }
  }

  /** A leaked lock stays leaked, and held by the same session, until that session ends. */
  lemma {:induction false} LeakLasts(h: Hash, states: seq<LSys>, actions: seq<LAction>, m: nat, k: nat)
    requires IsLRun(h, states, actions) && m < k < |states| && LeaksAt(h, states, actions, m)
    requires IsOpen(states[k], LeakingConn(h, states, actions, m))
    ensures var key := LeakingKey(h, states, actions, m);
      Leaked(h, states[k], key) && states[k].locks[key].conn == LeakingConn(h, states, actions, m)
    decreases k
  {
    var key, x := LeakingKey(h, states, actions, m), LeakingConn(h, states, actions, m);
    assert LStepAt(h, states, actions, k - 1);
    LocksAlwaysSafe(h, states, actions, k - 1);
    if m == k - 1 {
      LeakingLeaks(h, states[m], actions[m], states[k], key, x);
    } else {
      LocksAlwaysSafe(h, states, actions, m);
      assert ConnOk(states[m].calls, states[m].conns, actions[m].call);
      ConnectionsStay(h, states, actions, m, k - 1);
      OpenBefore(h, states[k - 1], actions[k - 1], states[k], x);
      LeakLasts(h, states, actions, m, k - 1);
      LeakStays(h, states[k - 1], actions[k - 1], states[k], key);
    }
  }

  /** Every leaked lock was leaked by some earlier step over the session that still holds it. */
  lemma {:induction false} LeakHasOrigin(h: Hash, states: seq<LSys>, actions: seq<LAction>, k: nat, key: int)
    returns (m: nat)
    requires IsLRun(h, states, actions) && k < |states| && Leaked(h, states[k], key)
    ensures m < k && LeaksAt(h, states, actions, m) && LeakingKey(h, states, actions, m) == key
    ensures LeakingConn(h, states, actions, m) == states[k].locks[key].conn
    decreases k
  {
    LocksAlwaysSafe(h, states, actions, k);
    assert LStepAt(h, states, actions, k - 1);
    LocksAlwaysSafe(h, states, actions, k - 1);
    var s, a, s' := states[k - 1], actions[k - 1], states[k];
    if Leaked(h, s, key) {
      m := LeakHasOrigin(h, states, actions, k - 1, key);
      LeakKeepsSession(h, s, a, s', key);
    } else {
      OnlyLeakingLeaks(h, s, a, s', key);
      m := k - 1;
    }
  }

  lemma LeakKeepsSession(h: Hash, s: LSys, a: LAction, s': LSys, key: int)
    requires LocksSafe(h, s) && LStep(h, s, a, s') && key in s.locks && key in s'.locks
    ensures s'.locks[key].conn == s.locks[key].conn
  {
    if Takes(h, s, a, key) {
      TakenLock(h, s, a, s', key);
    } else if Yields(h, s, a, key) {
      YieldedLock(h, s, a, s', key);
    } else {
      OtherLock(h, s, a, s', key);
    }
  }

  /**
   In every run, no lock is leaked if and only if the session of every leaking query error so far
   has ended. Failed connects, lost sessions, crashes and unlocks that took effect never leak.
   */
  lemma LeakFreeIff(h: Hash, states: seq<LSys>, actions: seq<LAction>, k: nat)
    requires IsLRun(h, states, actions) && k < |states|
    ensures LeakFree(h, states[k]) <==>
      forall m: nat :: m < k && LeaksAt(h, states, actions, m) ==>
        !IsOpen(states[k], LeakingConn(h, states, actions, m))
  {
    if key :| Leaked(h, states[k], key) {
      var m := LeakHasOrigin(h, states, actions, k, key);
      LocksAlwaysSafe(h, states, actions, k);
      assert HolderOk(states[k].conns, states[k].locks, key);
      assert LeaksAt(h, states, actions, m);
    } else {
      forall m: nat | m < k && LeaksAt(h, states, actions, m)
        ensures !IsOpen(states[k], LeakingConn(h, states, actions, m))
      {
        if IsOpen(states[k], LeakingConn(h, states, actions, m)) { LeakLasts(h, states, actions, m, k); }
      }
    }
  }

  /**
   While the session of a leaking query error lives, every attempt at its lock over another session
   is refused at any later time, and a deploy runs under that key only over the very same session.
   */
  lemma LeakRefusesOthers(h: Hash, states: seq<LSys>, actions: seq<LAction>, m: nat, k: nat, j: nat)
    requires IsLRun(h, states, actions) && m < k < |states| && LeaksAt(h, states, actions, m)
    requires IsOpen(states[k], LeakingConn(h, states, actions, m))
    requires j < |states[k].calls| && HasConn(states[k].calls[j].phase)
    requires Key(h, states[k].calls[j]) == LeakingKey(h, states, actions, m)
    requires states[k].calls[j].phase.conn != LeakingConn(h, states, actions, m)
    ensures states[k].calls[j].phase.Connected?
    ensures LEnabled(states[k], TryLock(j)) && LApply(h, states[k], TryLock(j)).calls[j].phase.Refused?
  {
    LeakLasts(h, states, actions, m, k);
    LocksAlwaysSafe(h, states, actions, k);
    assert LockOk(h, states[k].calls, states[k].locks, j);
  }

  // ---------- Who is refused ----------

  /**
   As long as no lock is leaked, an attempt is refused exactly while another call owns the lock of the
   same name, that is, of an environment whose name hashes alike.
   */
  lemma RefusedIffOwned(h: Hash, s: LSys, j: nat)
    requires LocksSafe(h, s) && LeakFree(h, s) && j < |s.calls| && s.calls[j].phase.Connected?
    ensures LEnabled(s, TryLock(j))
    ensures LApply(h, s, TryLock(j)).calls[j].phase.Refused? <==>
      exists i: nat :: i < |s.calls| && Owning(s.calls[i].phase) &&
        h("deploy:" + s.calls[i].environment) == h("deploy:" + s.calls[j].environment)
    ensures !LApply(h, s, TryLock(j)).calls[j].phase.Refused? ==>
      LApply(h, s, TryLock(j)).calls[j].phase == Locked(s.calls[j].phase.conn)
  {
    var key := h("deploy:" + s.calls[j].environment);
    assert key == Key(h, s.calls[j]);
    if key in s.locks {
      assert !Leaked(h, s, key);
      OwnerHasOtherSession(h, s, key, j);
      var i: nat :| OwnedBy(h, s, key, i);
      assert Owning(s.calls[i].phase) && h("deploy:" + s.calls[i].environment) == key;
    } else {
      forall i: nat | i < |s.calls| && Owning(s.calls[i].phase)
        ensures h("deploy:" + s.calls[i].environment) != key
      {
        assert LockOk(h, s.calls, s.locks, i);
      }
    }
  }

  /** The advisory lock itself: granted when free or held by the same session, counted, given up once. */
  lemma LockAndUnlock(h: Hash, s: LSys, j: nat)
    requires LocksSafe(h, s) && j < |s.calls| && HasConn(s.calls[j].phase)
    ensures var x, key := s.calls[j].phase.conn, h("deploy:" + s.calls[j].environment);
      s.calls[j].phase.Connected? ==>
        (var s' := LApply(h, s, TryLock(j));
         if key in s.locks && s.locks[key].conn != x then s'.locks == s.locks && s'.calls[j].phase.Refused?
         else
           s'.locks == s.locks[key := Holder(x, if key in s.locks then s.locks[key].count + 1 else 1)] &&
           s'.calls[j].phase == Locked(x))
    ensures var x, key := s.calls[j].phase.conn, h("deploy:" + s.calls[j].environment);
      s.calls[j].phase.Deleted? ==>
        x < |s.conns| && key in s.locks && s.locks[key].conn == x &&
        (var s' := LApply(h, s, Unlock(j));
         s'.calls[j].phase.Done? && !s'.conns[x].inUse && s'.conns[x].open &&
         s'.locks == if s.locks[key].count > 1 then s.locks[key := Holder(x, s.locks[key].count - 1)]
                     else s.locks - {key})
  {
    assert LockOk(h, s.calls, s.locks, j) && ConnOk(s.calls, s.conns, j);
  }

  /** The end of an idle session releases exactly the locks it holds. */
  lemma ClosedSession(h: Hash, s: LSys, x: nat)
    requires LocksSafe(h, s) && x < |s.conns| && s.conns[x].open && !s.conns[x].inUse
    ensures LEnabled(s, CloseIdle(x))
    ensures forall key :: key in LApply(h, s, CloseIdle(x)).locks <==> key in s.locks && s.locks[key].conn != x
  {
    forall key ensures key in LApply(h, s, CloseIdle(x)).locks <==> key in s.locks && s.locks[key].conn != x {
      assert HolderOk(s.conns, s.locks, key);
    }
  }

  predicate IsOf(s: LSys, x: nat, process: nat) {
    x < |s.conns| && s.conns[x].process == process
  }

  /** A crash ends exactly its process's sessions and calls, and so releases exactly their locks. */
  lemma CrashedProcess(h: Hash, s: LSys, process: nat)
    requires LocksSafe(h, s)
    ensures LEnabled(s, CrashProcess(process))
    ensures var s' := LApply(h, s, CrashProcess(process));
      |s'.conns| == |s.conns| && |s'.calls| == |s.calls| &&
      (forall key :: key in s'.locks <==> key in s.locks && !IsOf(s, s.locks[key].conn, process)) &&
      (forall x :: 0 <= x < |s.conns| ==>
         s'.conns[x] == if s.conns[x].process == process then Connection(process, false, false) else s.conns[x]) &&
      forall i :: 0 <= i < |s.calls| ==>
        var c := s.calls[i];
        s'.calls[i] == if c.process == process && c.phase !in {Done, Refused, Errored} then c.(phase := Crashed) else c
  {
    var s' := LApply(h, s, CrashProcess(process));
    forall key ensures key in s'.locks <==> key in s.locks && !IsOf(s, s.locks[key].conn, process) {
      assert HolderOk(s.conns, s.locks, key);
    }
  }

  /**
   What a call may do, whatever others do: it connects by a new connection or an idle one of its own
   process's pool, its pending query may succeed, throw either way or lose its session, and the
   command starts and ends between acquire and release.
   */
  lemma CallsMayAct(h: Hash, s: LSys, i: nat, x: nat, applied: bool)
    requires LocksSafe(h, s) && i < |s.calls|
    ensures var idle := Connection(s.calls[i].process, true, false);
      var mayUse := x == |s.conns| || (x < |s.conns| && s.conns[x] == idle);
      LEnabled(s, Connect(i, x)) <==> s.calls[i].phase == Calling && mayUse
    ensures s.calls[i].phase == Calling ==> LEnabled(s, ConnectFails(i))
    ensures s.calls[i].phase.Connected? ==> LEnabled(s, TryLock(i))
    ensures s.calls[i].phase.Locked? ==> LEnabled(s, Upsert(i))
    ensures s.calls[i].phase.Holding? ==> LEnabled(s, Start(i)) && LEnabled(s, Finish(i))
    ensures s.calls[i].phase.Executing? ==> LEnabled(s, Finish(i))
    ensures s.calls[i].phase.Releasing? ==> LEnabled(s, Delete(i))
    ensures s.calls[i].phase.Deleted? ==> LEnabled(s, Unlock(i))
    ensures var p := s.calls[i].phase;
      var querying := p.Connected? || (p.Locked? && s.calls[i].run.Some?) || p.Releasing? || p.Deleted?;
      querying ==> LEnabled(s, QueryFails(i, applied)) && LEnabled(s, ConnectionLost(i))
  {
    assert ConnOk(s.calls, s.conns, i);
  }
}
