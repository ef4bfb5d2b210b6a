/**
 The deploy lock: PostgreSQL session advisory locks taken on pooled connections, with an audit row
 per environment. Every await of `tryAcquire`, of the guarded command and of `release` is a step of
 its own, so calls of any number of processes interleave freely.
 */
module DeployLock {
  import opened Options

  const LOCK_PREFIX: string := "deploy:"

  /** hashtext: any function, so two environments may collide. */
  type Hash = string -> int

  datatype Phase =
    | Calling
    | Connected(conn: nat)      // the pool gave a connection; the lock query is next
    | Locked(conn: nat)         // the lock is granted; the audit row is next
    | Holding(conn: nat)        // tryAcquire has returned
    | Executing(conn: nat)      // the deploy command runs
    | Releasing(conn: nat)      // release() was called; the DELETE is next
    | Deleted(conn: nat)        // the unlock is next
    | Done
    | Refused                   // exit code 75
    | Errored                   // a query failed and the call threw
    | Crashed                   // its process died

  datatype Call = Call(process: nat, environment: string, run: Option<nat>, phase: Phase)

  datatype Connection = Connection(process: nat, open: bool, inUse: bool)

  /** The session that holds a lock, and how many times it took it. */
  datatype Holder = Holder(conn: nat, count: nat)

  /** `author` is the call that wrote the row; the table has no such column. */
  datatype AuditRow = AuditRow(lockedBy: nat, author: nat)

  datatype LSys = LSys(calls: seq<Call>, conns: seq<Connection>, locks: map<int, Holder>, rows: map<string, AuditRow>)

  datatype LAction =
    | NewCall(process: nat, environment: string, run: Option<nat>)
    | Connect(call: nat, conn: nat)
    | ConnectFails(call: nat)
    | TryLock(call: nat)
    | Upsert(call: nat)
    | Start(call: nat)
    | Finish(call: nat)             // the command ended, or logging failed before it began
    | Delete(call: nat)
    | Unlock(call: nat)
    | QueryFails(call: nat, applied: bool)  // the pending query throws, with or without having taken effect
    | ConnectionLost(call: nat)             // the pending query throws because its session ended
    | CloseIdle(conn: nat)
    | CrashProcess(process: nat)

  function Key(h: Hash, c: Call): int {
    h(LOCK_PREFIX + c.environment)
  }

  predicate HasConn(p: Phase) {
    p.Connected? || Owning(p)
  }

  /** From the granted lock to the unlock. */
  predicate Owning(p: Phase) {
    p.Locked? || WroteRow(p) || p.Deleted?
  }

  /** From the audit row's upsert to its deletion. */
  predicate WroteRow(p: Phase) {
    p.Holding? || p.Executing? || p.Releasing?
  }

  /** A query is pending. A call without a run sends no upsert. */
  predicate Querying(c: Call) {
    c.phase.Connected? || (c.phase.Locked? && c.run.Some?) || c.phase.Releasing? || c.phase.Deleted?
  }

  predicate LEnabled(s: LSys, a: LAction) {
    match a
    case NewCall(_, _, _) => true
    case Connect(i, x) =>
      i < |s.calls| && s.calls[i].phase.Calling? &&
      (x == |s.conns| ||
       (x < |s.conns| && s.conns[x].open && !s.conns[x].inUse && s.conns[x].process == s.calls[i].process))
    case ConnectFails(i) => i < |s.calls| && s.calls[i].phase.Calling?
    case TryLock(i) => i < |s.calls| && s.calls[i].phase.Connected?
    case Upsert(i) => i < |s.calls| && s.calls[i].phase.Locked?
    case Start(i) => i < |s.calls| && s.calls[i].phase.Holding?
    case Finish(i) => i < |s.calls| && (s.calls[i].phase.Holding? || s.calls[i].phase.Executing?)
    case Delete(i) => i < |s.calls| && s.calls[i].phase.Releasing?
    case Unlock(i) => i < |s.calls| && s.calls[i].phase.Deleted? && s.calls[i].phase.conn < |s.conns|
    case QueryFails(i, _) => i < |s.calls| && Querying(s.calls[i]) && s.calls[i].phase.conn < |s.conns|
    case ConnectionLost(i) => i < |s.calls| && Querying(s.calls[i]) && s.calls[i].phase.conn < |s.conns|
    case CloseIdle(x) => x < |s.conns| && s.conns[x].open && !s.conns[x].inUse
    case CrashProcess(_) => true
  }

  // ---------- The pieces of a step ----------

  function Moved(calls: seq<Call>, i: nat, p: Phase): seq<Call>
    requires i < |calls|
  {
    calls[i := calls[i].(phase := p)]
  }

  function InPhase(s: LSys, i: nat, p: Phase): LSys
    requires i < |s.calls|
  {
    s.(calls := Moved(s.calls, i, p))
  }

  /** client.release(): the connection goes back to the pool, its session and locks live on. */
  function GiveBack(s: LSys, i: nat, p: Phase): LSys
    requires i < |s.calls| && HasConn(s.calls[i].phase)
  {
    var x := s.calls[i].phase.conn;
    var s := InPhase(s, i, p);
    if x < |s.conns| then s.(conns := s.conns[x := s.conns[x].(inUse := false)]) else s
  }

  predicate Free(s: LSys, key: int, x: nat) {
    key !in s.locks || s.locks[key].conn == x
  }

  /** pg_try_advisory_lock by session x, granted again to a session that holds it. */
  function Taken(s: LSys, key: int, x: nat): LSys
    requires Free(s, key, x)
  {
    s.(locks := s.locks[key := Holder(x, if key in s.locks then s.locks[key].count + 1 else 1)])
  }

  /** pg_advisory_unlock by session x: gives up one count of its own lock, nothing otherwise. */
  function GivenUp(s: LSys, key: int, x: nat): LSys {
    if key !in s.locks || s.locks[key].conn != x then s
    else if s.locks[key].count > 1 then s.(locks := s.locks[key := Holder(x, s.locks[key].count - 1)])
    else s.(locks := s.locks - {key})
  }

  /** The end of sessions releases their locks. */
  function WithoutSessions(locks: map<int, Holder>, conns: seq<Connection>): map<int, Holder> {
    map k | k in locks && locks[k].conn < |conns| && conns[locks[k].conn].open :: locks[k]
  }

  function Closed(s: LSys, x: nat): LSys
    requires x < |s.conns|
  {
    var conns := s.conns[x := s.conns[x].(open := false, inUse := false)];
    s.(conns := conns, locks := WithoutSessions(s.locks, conns))
  }

  function WithRow(s: LSys, i: nat): LSys
    requires i < |s.calls|
  {
    var c := s.calls[i];
    if c.run.Some? then s.(rows := s.rows[c.environment := AuditRow(c.run.value, i)]) else s
  }

  function WithoutRow(s: LSys, i: nat): LSys
    requires i < |s.calls|
  {
    s.(rows := s.rows - {s.calls[i].environment})
  }

  /** The effect of the query that call i has pending. */
  function QueryEffect(h: Hash, s: LSys, i: nat): LSys
    requires i < |s.calls| && Querying(s.calls[i])
  {
    var c := s.calls[i];
    match c.phase
    case Connected(x) => if Free(s, Key(h, c), x) then Taken(s, Key(h, c), x) else s
    case Locked(_) => WithRow(s, i)
    case Releasing(_) => WithoutRow(s, i)
    case _ => GivenUp(s, Key(h, c), c.phase.conn)
  }

  predicate Alive(p: Phase) {
    p.Calling? || HasConn(p)
  }

  function CrashedCall(c: Call, process: nat): Call {
    if c.process == process && Alive(c.phase) then c.(phase := Crashed) else c
  }

  function CrashedConn(x: Connection, process: nat): Connection {
    if x.process == process then x.(open := false, inUse := false) else x
  }

  function AfterCrash(s: LSys, process: nat): LSys {
    var conns := seq(|s.conns|, x requires 0 <= x < |s.conns| => CrashedConn(s.conns[x], process));
    LSys(seq(|s.calls|, i requires 0 <= i < |s.calls| => CrashedCall(s.calls[i], process)),
         conns, WithoutSessions(s.locks, conns), s.rows)
  }

  function LApply(h: Hash, s: LSys, a: LAction): LSys
    requires LEnabled(s, a)
  {
    match a
    case NewCall(p, env, run) => s.(calls := s.calls + [Call(p, env, run, Calling)])
    case Connect(i, x) =>
      var mine := Connection(s.calls[i].process, true, true);
      InPhase(s, i, Connected(x)).(conns := if x == |s.conns| then s.conns + [mine] else s.conns[x := mine])
    case ConnectFails(i) => InPhase(s, i, Errored)
    case TryLock(i) =>
      var x := s.calls[i].phase.conn;
      if Free(s, Key(h, s.calls[i]), x)
      then InPhase(QueryEffect(h, s, i), i, Locked(x))
      else GiveBack(s, i, Refused)
    case Upsert(i) => InPhase(WithRow(s, i), i, Holding(s.calls[i].phase.conn))
    case Start(i) => InPhase(s, i, Executing(s.calls[i].phase.conn))
    case Finish(i) => InPhase(s, i, Releasing(s.calls[i].phase.conn))
    case Delete(i) => InPhase(QueryEffect(h, s, i), i, Deleted(s.calls[i].phase.conn))
    case Unlock(i) => GiveBack(QueryEffect(h, s, i), i, Done)
    case QueryFails(i, applied) => GiveBack(if applied then QueryEffect(h, s, i) else s, i, Errored)
    case ConnectionLost(i) => InPhase(Closed(s, s.calls[i].phase.conn), i, Errored)
    case CloseIdle(x) => Closed(s, x)
    case CrashProcess(p) => AfterCrash(s, p)
  }

  predicate LStep(h: Hash, s: LSys, a: LAction, s': LSys) {
    LEnabled(s, a) && s' == LApply(h, s, a)
  }

  // ---------- Mutual exclusion ----------

  predicate ConnOk(calls: seq<Call>, conns: seq<Connection>, i: nat) {
    i < |calls| && HasConn(calls[i].phase) ==>
      calls[i].phase.conn < |conns| && conns[calls[i].phase.conn] == Connection(calls[i].process, true, true)
  }

  predicate ConnsApart(calls: seq<Call>, i: nat, j: nat) {
    i < |calls| && j < |calls| && i != j && HasConn(calls[i].phase) && HasConn(calls[j].phase) ==>
      calls[i].phase.conn != calls[j].phase.conn
  }

  /** A call's connection is open, in use, and its alone. */
  ghost predicate ConnsOk(calls: seq<Call>, conns: seq<Connection>) {
    (forall i: nat :: ConnOk(calls, conns, i)) && forall i: nat, j: nat :: ConnsApart(calls, i, j)
  }

  predicate LockOk(h: Hash, calls: seq<Call>, locks: map<int, Holder>, i: nat) {
    i < |calls| && Owning(calls[i].phase) ==>
      Key(h, calls[i]) in locks && locks[Key(h, calls[i])].conn == calls[i].phase.conn
  }

  /** An owning call's session holds its lock. */
  ghost predicate LocksOk(h: Hash, calls: seq<Call>, locks: map<int, Holder>) {
    forall i: nat :: LockOk(h, calls, locks, i)
  }

  /** A row's author wrote it and has not deleted it. */
  predicate RowOk(calls: seq<Call>, rows: map<string, AuditRow>, env: string) {
    env in rows ==>
      rows[env].author < |calls| &&
      var c := calls[rows[env].author];
      c.environment == env && c.run == Some(rows[env].lockedBy) &&
      (WroteRow(c.phase) || c.phase.Errored? || c.phase.Crashed?)
  }

  /** A call between its upsert and its delete finds its row in place. */
  predicate WriterOk(calls: seq<Call>, rows: map<string, AuditRow>, i: nat) {
    i < |calls| && WroteRow(calls[i].phase) && calls[i].run.Some? ==>
      calls[i].environment in rows && rows[calls[i].environment].author == i
  }

  ghost predicate RowsOk(calls: seq<Call>, rows: map<string, AuditRow>) {
    (forall env :: RowOk(calls, rows, env)) && forall i: nat :: WriterOk(calls, rows, i)
  }

  predicate HolderOk(conns: seq<Connection>, locks: map<int, Holder>, key: int) {
    key in locks ==> locks[key].conn < |conns| && conns[locks[key].conn].open && locks[key].count >= 1
  }

  /** Every lock is held at least once, by a session that is open. */
  ghost predicate HoldersOk(conns: seq<Connection>, locks: map<int, Holder>) {
    forall key :: HolderOk(conns, locks, key)
  }

  predicate UsedBy(calls: seq<Call>, x: nat, i: nat) {
    i < |calls| && HasConn(calls[i].phase) && calls[i].phase.conn == x
  }

  ghost predicate UseOk(calls: seq<Call>, conns: seq<Connection>, x: nat) {
    x < |conns| && conns[x].inUse ==> exists i: nat :: UsedBy(calls, x, i)
  }

  /** Every connection in use belongs to a call: none is lost from the pool. */
  ghost predicate UsesOk(calls: seq<Call>, conns: seq<Connection>) {
    forall x: nat :: UseOk(calls, conns, x)
  }

  ghost predicate LocksSafe(h: Hash, s: LSys) {
    ConnsOk(s.calls, s.conns) && LocksOk(h, s.calls, s.locks) && RowsOk(s.calls, s.rows) &&
    HoldersOk(s.conns, s.locks) && UsesOk(s.calls, s.conns)
  }

  /** Two owning calls with the same key are the same call. */
  lemma OneOwner(h: Hash, s: LSys, i: nat, j: nat)
    requires ConnsOk(s.calls, s.conns) && LocksOk(h, s.calls, s.locks)
    requires i < |s.calls| && j < |s.calls| && Owning(s.calls[i].phase) && Owning(s.calls[j].phase)
    requires Key(h, s.calls[i]) == Key(h, s.calls[j])
    ensures i == j
  {
    assert LockOk(h, s.calls, s.locks, i) && LockOk(h, s.calls, s.locks, j) && ConnsApart(s.calls, i, j);
  }

  // Connections

  lemma MoveKeepsConns(calls: seq<Call>, conns: seq<Connection>, i: nat, p: Phase)
    requires ConnsOk(calls, conns) && i < |calls|
    requires HasConn(p) ==> HasConn(calls[i].phase) && p.conn == calls[i].phase.conn
    ensures ConnsOk(Moved(calls, i, p), conns)
  {
    forall j: nat ensures ConnOk(Moved(calls, i, p), conns, j) { assert ConnOk(calls, conns, j); }
    forall j: nat, k: nat ensures ConnsApart(Moved(calls, i, p), j, k) { assert ConnsApart(calls, j, k); }
  }

  lemma LeaveKeepsConns(calls: seq<Call>, conns: seq<Connection>, i: nat, p: Phase, x: Connection)
    requires ConnsOk(calls, conns) && i < |calls| && HasConn(calls[i].phase) && !HasConn(p)
    requires calls[i].phase.conn < |conns|
    ensures ConnsOk(Moved(calls, i, p), conns[calls[i].phase.conn := x])
  {
    var conns' := conns[calls[i].phase.conn := x];
    forall j: nat ensures ConnOk(Moved(calls, i, p), conns', j) {
      assert ConnOk(calls, conns, j) && ConnsApart(calls, i, j);
    }
    forall j: nat, k: nat ensures ConnsApart(Moved(calls, i, p), j, k) { assert ConnsApart(calls, j, k); }
  }

  lemma GiveBackKeepsConns(s: LSys, i: nat, p: Phase)
    requires ConnsOk(s.calls, s.conns) && i < |s.calls| && HasConn(s.calls[i].phase) && !HasConn(p)
    requires s.calls[i].phase.conn < |s.conns|
    ensures ConnsOk(GiveBack(s, i, p).calls, GiveBack(s, i, p).conns)
  {
    LeaveKeepsConns(s.calls, s.conns, i, p, s.conns[s.calls[i].phase.conn].(inUse := false));
  }

  lemma IdleKeepsConns(calls: seq<Call>, conns: seq<Connection>, x: nat, y: Connection)
    requires ConnsOk(calls, conns) && x < |conns| && !conns[x].inUse
    ensures ConnsOk(calls, conns[x := y])
  {
    var conns' := conns[x := y];
    forall j: nat ensures ConnOk(calls, conns', j) { assert ConnOk(calls, conns, j); }
  }

  lemma SpareKeepsConns(calls: seq<Call>, conns: seq<Connection>, x: Connection)
    requires ConnsOk(calls, conns)
    ensures ConnsOk(calls, conns + [x])
  {
    forall j: nat ensures ConnOk(calls, conns + [x], j) { assert ConnOk(calls, conns, j); }
  }

  lemma ConnectKeepsConns(calls: seq<Call>, conns: seq<Connection>, i: nat, x: nat)
    requires ConnsOk(calls, conns) && i < |calls| && x < |conns| && !conns[x].inUse
    ensures ConnsOk(Moved(calls, i, Connected(x)), conns[x := Connection(calls[i].process, true, true)])
  {
    var calls', conns' := Moved(calls, i, Connected(x)), conns[x := Connection(calls[i].process, true, true)];
    forall j: nat ensures ConnOk(calls', conns', j) {
      assert ConnOk(calls, conns, j);
    }
    forall j: nat, k: nat ensures ConnsApart(calls', j, k) {
      assert ConnsApart(calls, j, k) && ConnOk(calls, conns, j) && ConnOk(calls, conns, k);
    }
  }

  lemma NewConnKeepsConns(calls: seq<Call>, conns: seq<Connection>, i: nat)
    requires ConnsOk(calls, conns) && i < |calls|
    ensures ConnsOk(Moved(calls, i, Connected(|conns|)), conns + [Connection(calls[i].process, true, true)])
  {
    var spare, mine := Connection(calls[i].process, true, false), Connection(calls[i].process, true, true);
    SpareKeepsConns(calls, conns, spare);
    ConnectKeepsConns(calls, conns + [spare], i, |conns|);
    assert (conns + [spare])[|conns| := mine] == conns + [mine];
  }

  lemma CrashKeepsConns(s: LSys, process: nat)
    requires ConnsOk(s.calls, s.conns)
    ensures ConnsOk(AfterCrash(s, process).calls, AfterCrash(s, process).conns)
  {
    var s' := AfterCrash(s, process);
    forall j: nat ensures ConnOk(s'.calls, s'.conns, j) { assert ConnOk(s.calls, s.conns, j); }
    forall j: nat, k: nat ensures ConnsApart(s'.calls, j, k) { assert ConnsApart(s.calls, j, k); }
  }

  lemma NewCallKeepsConns(calls: seq<Call>, conns: seq<Connection>, c: Call)
    requires ConnsOk(calls, conns) && c.phase.Calling?
    ensures ConnsOk(calls + [c], conns)
  {
    forall j: nat ensures ConnOk(calls + [c], conns, j) { assert ConnOk(calls, conns, j); }
    forall j: nat, k: nat ensures ConnsApart(calls + [c], j, k) { assert ConnsApart(calls, j, k); }
  }

  /** Steps that only move a call on, over the same connection and under the same lock. */
  predicate IsMove(a: LAction) {
    a.ConnectFails? || a.Upsert? || a.Start? || a.Finish? || a.Delete?
  }

  lemma MoveStep(h: Hash, s: LSys, a: LAction, s': LSys) returns (i: nat, p: Phase)
    requires IsMove(a) && LStep(h, s, a, s')
    ensures i < |s.calls| && s'.calls == Moved(s.calls, i, p) && s'.conns == s.conns && s'.locks == s.locks
    ensures HasConn(p) <==> HasConn(s.calls[i].phase)
    ensures HasConn(p) ==> p.conn == s.calls[i].phase.conn
    ensures Owning(p) <==> Owning(s.calls[i].phase)
  {
    i := a.call;
    p := s'.calls[i].phase;
  }

  lemma StepKeepsConnsOk(h: Hash, s: LSys, a: LAction, s': LSys)
    requires ConnsOk(s.calls, s.conns) && LStep(h, s, a, s')
    ensures ConnsOk(s'.calls, s'.conns)
  {
    if IsMove(a) {
      var i, p := MoveStep(h, s, a, s');
      MoveKeepsConns(s.calls, s.conns, i, p);
      return;
    }
    match a {
      case NewCall(p, env, run) => NewCallKeepsConns(s.calls, s.conns, Call(p, env, run, Calling));
      case Connect(i, x) =>
        if x == |s.conns| {
          NewConnKeepsConns(s.calls, s.conns, i);
        } else {
          ConnectKeepsConns(s.calls, s.conns, i, x);
        }
      case TryLock(i) =>
        if Free(s, Key(h, s.calls[i]), s.calls[i].phase.conn) {
          MoveKeepsConns(s.calls, s.conns, i, Locked(s.calls[i].phase.conn));
        } else {
          assert ConnOk(s.calls, s.conns, i);
          GiveBackKeepsConns(s, i, Refused);
        }
      case Unlock(i) => GiveBackKeepsConns(s, i, Done);
      case QueryFails(i, _) => GiveBackKeepsConns(s, i, Errored);
      case ConnectionLost(i) =>
        var x := s.calls[i].phase.conn;
        LeaveKeepsConns(s.calls, s.conns, i, Errored, s.conns[x].(open := false, inUse := false));
      case CloseIdle(x) => IdleKeepsConns(s.calls, s.conns, x, s.conns[x].(open := false, inUse := false));
      case CrashProcess(p) => CrashKeepsConns(s, p);
    }
  }

  // Locks

  lemma MoveKeepsLocks(h: Hash, calls: seq<Call>, locks: map<int, Holder>, i: nat, p: Phase)
    requires LocksOk(h, calls, locks) && i < |calls|
    requires Owning(p) ==>
      (Owning(calls[i].phase) && p.conn == calls[i].phase.conn) ||
      (Key(h, calls[i]) in locks && locks[Key(h, calls[i])].conn == p.conn)
    ensures LocksOk(h, Moved(calls, i, p), locks)
  {
    forall j: nat ensures LockOk(h, Moved(calls, i, p), locks, j) { assert LockOk(h, calls, locks, j); }
  }

  lemma NewCallKeepsLocks(h: Hash, calls: seq<Call>, locks: map<int, Holder>, c: Call)
    requires LocksOk(h, calls, locks) && c.phase.Calling?
    ensures LocksOk(h, calls + [c], locks)
  {
    forall j: nat ensures LockOk(h, calls + [c], locks, j) { assert LockOk(h, calls, locks, j); }
  }

  lemma TakenKeepsLocks(h: Hash, s: LSys, key: int, x: nat)
    requires LocksOk(h, s.calls, s.locks) && Free(s, key, x)
    ensures LocksOk(h, s.calls, Taken(s, key, x).locks)
  {
    forall j: nat ensures LockOk(h, s.calls, Taken(s, key, x).locks, j) { assert LockOk(h, s.calls, s.locks, j); }
  }

  /** Giving up a count of one's own lock hurts no other owner, since there is none. */
  lemma GivenUpKeepsLocks(h: Hash, s: LSys, i: nat, p: Phase)
    requires ConnsOk(s.calls, s.conns) && LocksOk(h, s.calls, s.locks)
    requires i < |s.calls| && s.calls[i].phase.Deleted? && !Owning(p)
    ensures LocksOk(h, Moved(s.calls, i, p), GivenUp(s, Key(h, s.calls[i]), s.calls[i].phase.conn).locks)
  {
    var locks := GivenUp(s, Key(h, s.calls[i]), s.calls[i].phase.conn).locks;
    forall j: nat ensures LockOk(h, Moved(s.calls, i, p), locks, j) {
      assert LockOk(h, s.calls, s.locks, j) && LockOk(h, s.calls, s.locks, i) && ConnsApart(s.calls, i, j);
    }
  }

  lemma EndedSessionsKeepLocks(h: Hash, calls: seq<Call>, locks: map<int, Holder>, conns: seq<Connection>)
    requires LocksOk(h, calls, locks) && ConnsOk(calls, conns)
    ensures LocksOk(h, calls, WithoutSessions(locks, conns))
  {
    forall j: nat ensures LockOk(h, calls, WithoutSessions(locks, conns), j) {
      assert LockOk(h, calls, locks, j) && ConnOk(calls, conns, j);
    }
  }

  lemma CrashKeepsLocks(h: Hash, s: LSys, process: nat)
    requires ConnsOk(s.calls, s.conns) && LocksOk(h, s.calls, s.locks)
    ensures LocksOk(h, AfterCrash(s, process).calls, AfterCrash(s, process).locks)
  {
    var s' := AfterCrash(s, process);
    CrashKeepsConns(s, process);
    forall j: nat ensures LockOk(h, s'.calls, s.locks, j) { assert LockOk(h, s.calls, s.locks, j); }
    EndedSessionsKeepLocks(h, s'.calls, s.locks, s'.conns);
  }

  lemma QueryEffectKeepsLocks(h: Hash, s: LSys, i: nat, p: Phase)
    requires ConnsOk(s.calls, s.conns) && LocksOk(h, s.calls, s.locks)
    requires i < |s.calls| && Querying(s.calls[i]) && !Owning(p)
    ensures LocksOk(h, Moved(s.calls, i, p), QueryEffect(h, s, i).locks)
  {
    var c := s.calls[i];
    match c.phase {
      case Deleted(_) => GivenUpKeepsLocks(h, s, i, p);
      case Connected(x) =>
        if Free(s, Key(h, c), x) { TakenKeepsLocks(h, s, Key(h, c), x); }
        MoveKeepsLocks(h, s.calls, QueryEffect(h, s, i).locks, i, p);
      case _ => MoveKeepsLocks(h, s.calls, s.locks, i, p);
    }
  }

  lemma StepKeepsLocksOk(h: Hash, s: LSys, a: LAction, s': LSys)
    requires ConnsOk(s.calls, s.conns) && LocksOk(h, s.calls, s.locks) && LStep(h, s, a, s')
    ensures LocksOk(h, s'.calls, s'.locks)
  {
    if IsMove(a) {
      var i, p := MoveStep(h, s, a, s');
      MoveKeepsLocks(h, s.calls, s.locks, i, p);
      return;
    }
    match a {
      case NewCall(p, env, run) => NewCallKeepsLocks(h, s.calls, s.locks, Call(p, env, run, Calling));
      case Connect(i, x) => MoveKeepsLocks(h, s.calls, s.locks, i, Connected(x));
      case TryLock(i) =>
        var x := s.calls[i].phase.conn;
        if Free(s, Key(h, s.calls[i]), x) {
          TakenKeepsLocks(h, s, Key(h, s.calls[i]), x);
          MoveKeepsLocks(h, s.calls, s'.locks, i, Locked(x));
        } else {
          MoveKeepsLocks(h, s.calls, s.locks, i, Refused);
        }
      case Unlock(i) => GivenUpKeepsLocks(h, s, i, Done);
      case QueryFails(i, applied) =>
        if applied {
          QueryEffectKeepsLocks(h, s, i, Errored);
        } else {
          MoveKeepsLocks(h, s.calls, s.locks, i, Errored);
        }
      case ConnectionLost(i) =>
        MoveKeepsLocks(h, s.calls, s.locks, i, Errored);
        StepKeepsConnsOk(h, s, a, s');
        EndedSessionsKeepLocks(h, s'.calls, s.locks, s'.conns);
      case CloseIdle(x) =>
        StepKeepsConnsOk(h, s, a, s');
        EndedSessionsKeepLocks(h, s.calls, s.locks, s'.conns);
      case CrashProcess(p) => CrashKeepsLocks(h, s, p);
    }
  }

  // Audit rows

  lemma MoveKeepsRows(calls: seq<Call>, rows: map<string, AuditRow>, i: nat, p: Phase)
    requires RowsOk(calls, rows) && i < |calls| && Alive(calls[i].phase)
    requires if WroteRow(calls[i].phase) then WroteRow(p) || p.Errored? || p.Crashed? else !WroteRow(p)
    ensures RowsOk(Moved(calls, i, p), rows)
  {
    forall env ensures RowOk(Moved(calls, i, p), rows, env) { assert RowOk(calls, rows, env); }
    forall j: nat ensures WriterOk(Moved(calls, i, p), rows, j) { assert WriterOk(calls, rows, j); }
  }

  lemma NewCallKeepsRows(calls: seq<Call>, rows: map<string, AuditRow>, c: Call)
    requires RowsOk(calls, rows) && c.phase.Calling?
    ensures RowsOk(calls + [c], rows)
  {
    forall env ensures RowOk(calls + [c], rows, env) { assert RowOk(calls, rows, env); }
    forall j: nat ensures WriterOk(calls + [c], rows, j) { assert WriterOk(calls, rows, j); }
  }

  predicate OnlyWriter(calls: seq<Call>, i: nat)
    requires i < |calls|
  {
    forall j :: 0 <= j < |calls| && j != i && WroteRow(calls[j].phase) ==> calls[j].environment != calls[i].environment
  }

  lemma OwnerIsOnlyWriter(h: Hash, s: LSys, i: nat)
    requires ConnsOk(s.calls, s.conns) && LocksOk(h, s.calls, s.locks) && i < |s.calls| && Owning(s.calls[i].phase)
    ensures OnlyWriter(s.calls, i)
  {
    forall j | 0 <= j < |s.calls| && j != i && WroteRow(s.calls[j].phase)
      ensures s.calls[j].environment != s.calls[i].environment
    {
      if s.calls[j].environment == s.calls[i].environment { OneOwner(h, s, i, j); }
    }
  }

  lemma UpsertKeepsRows(s: LSys, i: nat, p: Phase)
    requires RowsOk(s.calls, s.rows) && i < |s.calls| && s.calls[i].phase.Locked? && OnlyWriter(s.calls, i)
    requires WroteRow(p) || p.Errored?
    ensures RowsOk(Moved(s.calls, i, p), WithRow(s, i).rows)
  {
    var calls, rows := Moved(s.calls, i, p), WithRow(s, i).rows;
    forall env ensures RowOk(calls, rows, env) { assert RowOk(s.calls, s.rows, env) && WriterOk(s.calls, s.rows, i); }
    forall j: nat ensures WriterOk(calls, rows, j) { assert WriterOk(s.calls, s.rows, j); }
  }

  lemma DeleteKeepsRows(s: LSys, i: nat, p: Phase)
    requires RowsOk(s.calls, s.rows) && i < |s.calls| && s.calls[i].phase.Releasing? && OnlyWriter(s.calls, i)
    requires !WroteRow(p)
    ensures RowsOk(Moved(s.calls, i, p), WithoutRow(s, i).rows)
  {
    var calls, rows := Moved(s.calls, i, p), WithoutRow(s, i).rows;
    forall env ensures RowOk(calls, rows, env) { assert RowOk(s.calls, s.rows, env) && WriterOk(s.calls, s.rows, i); }
    forall j: nat ensures WriterOk(calls, rows, j) { assert WriterOk(s.calls, s.rows, j); }
  }

  lemma CrashKeepsRows(s: LSys, process: nat)
    requires RowsOk(s.calls, s.rows)
    ensures RowsOk(AfterCrash(s, process).calls, s.rows)
  {
    var calls := AfterCrash(s, process).calls;
    forall env ensures RowOk(calls, s.rows, env) { assert RowOk(s.calls, s.rows, env); }
    forall j: nat ensures WriterOk(calls, s.rows, j) { assert WriterOk(s.calls, s.rows, j); }
  }

  /** Steps of one call that leave the audit table alone. */
  predicate IsRowless(a: LAction) {
    a.Connect? || a.ConnectFails? || a.TryLock? || a.Start? || a.Finish? || a.Unlock? || a.ConnectionLost?
  }

  lemma RowlessStep(h: Hash, s: LSys, a: LAction, s': LSys) returns (i: nat, p: Phase)
    requires IsRowless(a) && LStep(h, s, a, s')
    ensures i < |s.calls| && Alive(s.calls[i].phase) && s'.calls == Moved(s.calls, i, p) && s'.rows == s.rows
    ensures if WroteRow(s.calls[i].phase) then WroteRow(p) || p.Errored? else !WroteRow(p)
  {
    i := a.call;
    p := s'.calls[i].phase;
  }

  lemma StepKeepsRowsOk(h: Hash, s: LSys, a: LAction, s': LSys)
    requires LocksSafe(h, s) && LStep(h, s, a, s')
    ensures RowsOk(s'.calls, s'.rows)
  {
    if IsRowless(a) {
      var i, p := RowlessStep(h, s, a, s');
      MoveKeepsRows(s.calls, s.rows, i, p);
      return;
    }
    match a {
      case NewCall(p, env, run) => NewCallKeepsRows(s.calls, s.rows, Call(p, env, run, Calling));
      case CloseIdle(_) =>
      case CrashProcess(p) => CrashKeepsRows(s, p);
      case Upsert(i) =>
        OwnerIsOnlyWriter(h, s, i);
        UpsertKeepsRows(s, i, Holding(s.calls[i].phase.conn));
      case Delete(i) =>
        OwnerIsOnlyWriter(h, s, i);
        DeleteKeepsRows(s, i, Deleted(s.calls[i].phase.conn));
      case QueryFails(i, applied) => FailedQueryKeepsRows(h, s, i, applied);
    }
  }

  lemma FailedQueryKeepsRows(h: Hash, s: LSys, i: nat, applied: bool)
    requires LocksSafe(h, s) && i < |s.calls| && Querying(s.calls[i])
    ensures RowsOk(Moved(s.calls, i, Errored), if applied then QueryEffect(h, s, i).rows else s.rows)
  {
    if applied && s.calls[i].phase.Locked? {
      OwnerIsOnlyWriter(h, s, i);
      UpsertKeepsRows(s, i, Errored);
    } else if applied && s.calls[i].phase.Releasing? {
      OwnerIsOnlyWriter(h, s, i);
      DeleteKeepsRows(s, i, Errored);
    } else {
      MoveKeepsRows(s.calls, s.rows, i, Errored);
    }
  }

  // Holders and users

  lemma TakenKeepsHolders(s: LSys, key: int, x: nat)
    requires HoldersOk(s.conns, s.locks) && Free(s, key, x) && x < |s.conns| && s.conns[x].open
    ensures HoldersOk(s.conns, Taken(s, key, x).locks)
  {
    forall k ensures HolderOk(s.conns, Taken(s, key, x).locks, k) { assert HolderOk(s.conns, s.locks, k); }
  }

  lemma GivenUpKeepsHolders(s: LSys, key: int, x: nat)
    requires HoldersOk(s.conns, s.locks)
    ensures HoldersOk(s.conns, GivenUp(s, key, x).locks)
  {
    forall k ensures HolderOk(s.conns, GivenUp(s, key, x).locks, k) { assert HolderOk(s.conns, s.locks, k); }
  }

  /** Holders stay in order while no session of theirs ends. */
  lemma OpenKeepsHolders(conns: seq<Connection>, conns': seq<Connection>, locks: map<int, Holder>)
    requires HoldersOk(conns, locks) && |conns| <= |conns'|
    requires forall x :: 0 <= x < |conns| && conns[x].open ==> conns'[x].open
    ensures HoldersOk(conns', locks)
  {
    forall k ensures HolderOk(conns', locks, k) { assert HolderOk(conns, locks, k); }
  }

  lemma EndedSessionsKeepHolders(conns: seq<Connection>, conns': seq<Connection>, locks: map<int, Holder>)
    requires HoldersOk(conns, locks)
    ensures HoldersOk(conns', WithoutSessions(locks, conns'))
  {
    forall k ensures HolderOk(conns', WithoutSessions(locks, conns'), k) { assert HolderOk(conns, locks, k); }
  }

  lemma QueryEffectKeepsHolders(h: Hash, s: LSys, i: nat)
    requires ConnsOk(s.calls, s.conns) && HoldersOk(s.conns, s.locks) && i < |s.calls| && Querying(s.calls[i])
    ensures QueryEffect(h, s, i).conns == s.conns && QueryEffect(h, s, i).calls == s.calls
    ensures HoldersOk(s.conns, QueryEffect(h, s, i).locks)
  {
    var c := s.calls[i];
    assert ConnOk(s.calls, s.conns, i);
    match c.phase {
      case Connected(x) => if Free(s, Key(h, c), x) { TakenKeepsHolders(s, Key(h, c), x); }
      case Deleted(x) => GivenUpKeepsHolders(s, Key(h, c), x);
      case _ =>
    }
  }

  lemma StepKeepsHoldersOk(h: Hash, s: LSys, a: LAction, s': LSys)
    requires ConnsOk(s.calls, s.conns) && HoldersOk(s.conns, s.locks) && LStep(h, s, a, s')
    ensures HoldersOk(s'.conns, s'.locks)
  {
    match a {
      case NewCall(_, _, _) =>
      case Connect(_, _) => OpenKeepsHolders(s.conns, s'.conns, s.locks);
      case TryLock(i) =>
        QueryEffectKeepsHolders(h, s, i);
        OpenKeepsHolders(s.conns, s'.conns, s'.locks);
      case Unlock(i) =>
        QueryEffectKeepsHolders(h, s, i);
        OpenKeepsHolders(s.conns, s'.conns, s'.locks);
      case QueryFails(i, _) =>
        QueryEffectKeepsHolders(h, s, i);
        OpenKeepsHolders(s.conns, s'.conns, s'.locks);
      case ConnectionLost(_) => EndedSessionsKeepHolders(s.conns, s'.conns, s.locks);
      case CloseIdle(_) => EndedSessionsKeepHolders(s.conns, s'.conns, s.locks);
      case CrashProcess(_) => EndedSessionsKeepHolders(s.conns, s'.conns, s.locks);
      case _ => var _, _ := MoveStep(h, s, a, s');
    }
  }

  /** Uses outlast a move that takes at most connection x from its call, and leave x itself idle. */
  lemma MoveKeepsUses(calls: seq<Call>, conns: seq<Connection>, i: nat, p: Phase, conns': seq<Connection>)
    requires UsesOk(calls, conns) && i < |calls|
    requires forall x: nat :: x < |conns'| && conns'[x].inUse ==>
      (HasConn(p) && p.conn == x) || (x < |conns| && conns[x].inUse && !UsedBy(calls, x, i))
    ensures UsesOk(Moved(calls, i, p), conns')
  {
    forall x: nat ensures UseOk(Moved(calls, i, p), conns', x) {
      assert UseOk(calls, conns, x);
      if HasConn(p) && p.conn == x {
        assert UsedBy(Moved(calls, i, p), x, i);
      } else if x < |conns'| && conns'[x].inUse {
        var j: nat :| UsedBy(calls, x, j);
        assert UsedBy(Moved(calls, i, p), x, j);
      }
    }
  }

  lemma NewCallKeepsUses(calls: seq<Call>, conns: seq<Connection>, c: Call)
    requires UsesOk(calls, conns)
    ensures UsesOk(calls + [c], conns)
  {
    forall x: nat ensures UseOk(calls + [c], conns, x) {
      assert UseOk(calls, conns, x);
      if x < |conns| && conns[x].inUse {
        var j: nat :| UsedBy(calls, x, j);
        assert UsedBy(calls + [c], x, j);
      }
    }
  }

  lemma CrashKeepsUses(s: LSys, process: nat)
    requires ConnsOk(s.calls, s.conns) && UsesOk(s.calls, s.conns)
    ensures UsesOk(AfterCrash(s, process).calls, AfterCrash(s, process).conns)
  {
    var s' := AfterCrash(s, process);
    forall x: nat ensures UseOk(s'.calls, s'.conns, x) {
      assert UseOk(s.calls, s.conns, x);
      if x < |s'.conns| && s'.conns[x].inUse {
        var j: nat :| UsedBy(s.calls, x, j);
        assert ConnOk(s.calls, s.conns, j);
        assert UsedBy(s'.calls, x, j);
      }
    }
  }

  lemma IdleKeepsUses(calls: seq<Call>, conns: seq<Connection>, x: nat, y: Connection)
    requires UsesOk(calls, conns) && x < |conns| && !y.inUse
    ensures UsesOk(calls, conns[x := y])
  {
    var conns' := conns[x := y];
    forall z: nat ensures UseOk(calls, conns', z) { assert UseOk(calls, conns, z); }
  }

  /** A call that leaves its connection, given back or closed. */
  lemma LeaveKeepsUses(calls: seq<Call>, conns: seq<Connection>, i: nat, p: Phase, y: Connection)
    requires UsesOk(calls, conns) && i < |calls| && HasConn(calls[i].phase)
    requires calls[i].phase.conn < |conns| && !y.inUse
    ensures UsesOk(Moved(calls, i, p), conns[calls[i].phase.conn := y])
  {
    MoveKeepsUses(calls, conns, i, p, conns[calls[i].phase.conn := y]);
  }

  lemma TryLockKeepsUses(h: Hash, s: LSys, i: nat)
    requires ConnsOk(s.calls, s.conns) && UsesOk(s.calls, s.conns) && LEnabled(s, TryLock(i))
    ensures UsesOk(LApply(h, s, TryLock(i)).calls, LApply(h, s, TryLock(i)).conns)
  {
    var x := s.calls[i].phase.conn;
    assert ConnOk(s.calls, s.conns, i);
    if Free(s, Key(h, s.calls[i]), x) {
      MoveKeepsUses(s.calls, s.conns, i, Locked(x), s.conns);
    } else {
      LeaveKeepsUses(s.calls, s.conns, i, Refused, s.conns[x].(inUse := false));
    }
  }

  lemma QueryEffectMovesNothing(h: Hash, s: LSys, i: nat)
    requires i < |s.calls| && Querying(s.calls[i])
    ensures QueryEffect(h, s, i).conns == s.conns && QueryEffect(h, s, i).calls == s.calls
  {
  }

  lemma GiveBackKeepsUses(s: LSys, i: nat, p: Phase)
    requires UsesOk(s.calls, s.conns) && i < |s.calls| && HasConn(s.calls[i].phase)
    requires s.calls[i].phase.conn < |s.conns|
    ensures UsesOk(GiveBack(s, i, p).calls, GiveBack(s, i, p).conns)
  {
    LeaveKeepsUses(s.calls, s.conns, i, p, s.conns[s.calls[i].phase.conn].(inUse := false));
  }

  lemma StepKeepsUsesOk(h: Hash, s: LSys, a: LAction, s': LSys)
    requires ConnsOk(s.calls, s.conns) && UsesOk(s.calls, s.conns) && LStep(h, s, a, s')
    ensures UsesOk(s'.calls, s'.conns)
  {
    match a {
      case NewCall(p, env, run) => NewCallKeepsUses(s.calls, s.conns, Call(p, env, run, Calling));
      case Connect(i, x) => MoveKeepsUses(s.calls, s.conns, i, Connected(x), s'.conns);
      case TryLock(i) => TryLockKeepsUses(h, s, i);
      case Unlock(i) =>
        QueryEffectMovesNothing(h, s, i);
        GiveBackKeepsUses(QueryEffect(h, s, i), i, Done);
      case QueryFails(i, applied) =>
        QueryEffectMovesNothing(h, s, i);
        GiveBackKeepsUses(if applied then QueryEffect(h, s, i) else s, i, Errored);
      case ConnectionLost(i) =>
        var x := s.calls[i].phase.conn;
        LeaveKeepsUses(s.calls, s.conns, i, Errored, s.conns[x].(open := false, inUse := false));
      case CloseIdle(x) => IdleKeepsUses(s.calls, s.conns, x, s.conns[x].(open := false, inUse := false));
      case CrashProcess(p) => CrashKeepsUses(s, p);
      case _ =>
        var i, p := MoveStep(h, s, a, s');
        MoveKeepsUses(s.calls, s.conns, i, p, s.conns);
    }
  }

  lemma StepKeepsLocksSafe(h: Hash, s: LSys, a: LAction, s': LSys)
    requires LocksSafe(h, s) && LStep(h, s, a, s')
    ensures LocksSafe(h, s')
  {
    StepKeepsConnsOk(h, s, a, s');
    StepKeepsLocksOk(h, s, a, s');
    StepKeepsRowsOk(h, s, a, s');
    StepKeepsHoldersOk(h, s, a, s');
    StepKeepsUsesOk(h, s, a, s');
  }

  // ---------- Over whole runs ----------

  const NO_CALLS: LSys := LSys([], [], map[], map[])

  predicate LStepAt(h: Hash, states: seq<LSys>, actions: seq<LAction>, k: nat) {
    k < |actions| && k + 1 < |states| && LStep(h, states[k], actions[k], states[k + 1])
  }

  ghost predicate IsLRun(h: Hash, states: seq<LSys>, actions: seq<LAction>) {
    |states| == |actions| + 1 && states[0] == NO_CALLS &&
    forall k: nat :: k < |actions| ==> LStepAt(h, states, actions, k)
  }

  lemma {:induction false} LocksAlwaysSafe(h: Hash, states: seq<LSys>, actions: seq<LAction>, k: nat)
    requires IsLRun(h, states, actions) && k < |states|
    ensures LocksSafe(h, states[k])
  {
    if k > 0 {
      LocksAlwaysSafe(h, states, actions, k - 1);
      assert LStepAt(h, states, actions, k - 1);
      StepKeepsLocksSafe(h, states[k - 1], actions[k - 1], states[k]);
    }
  }

  /**
   At most one deploy command per environment executes at any time: for every hash function, with
   pooled and re-entrant sessions, failed and half-applied queries, and process crashes.
   */
  lemma OneDeployPerEnvironment(h: Hash, states: seq<LSys>, actions: seq<LAction>, k: nat, i: nat, j: nat)
    requires IsLRun(h, states, actions) && k < |states| && i < |states[k].calls| && j < |states[k].calls|
    requires states[k].calls[i].phase.Executing? && states[k].calls[j].phase.Executing?
    requires states[k].calls[i].environment == states[k].calls[j].environment
    ensures i == j
  {
    LocksAlwaysSafe(h, states, actions, k);
    OneOwner(h, states[k], i, j);
  }

  // ---------- The audit table ----------

  predicate IsQueryError(a: LAction) {
    a.ConnectFails? || a.QueryFails? || a.ConnectionLost?
  }

  ghost predicate NoErrorsBefore(actions: seq<LAction>, k: nat)
    requires k <= |actions|
  {
    forall m :: 0 <= m < k ==> !IsQueryError(actions[m])
  }

  /** The call has written the environment's row and not deleted it. */
  predicate HasRowFor(c: Call, env: string) {
    WroteRow(c.phase) && c.environment == env && c.run.Some?
  }

  predicate NoneErrored(calls: seq<Call>) {
    forall i :: 0 <= i < |calls| ==> !calls[i].phase.Errored?
  }

  lemma {:induction false} NoErrorsNoneErrored(h: Hash, states: seq<LSys>, actions: seq<LAction>, k: nat)
    requires IsLRun(h, states, actions) && k <= |actions| && NoErrorsBefore(actions, k)
    ensures NoneErrored(states[k].calls)
  {
    if k > 0 {
      NoErrorsNoneErrored(h, states, actions, k - 1);
      assert LStepAt(h, states, actions, k - 1);
      assert !IsQueryError(actions[k - 1]);
    }
  }

  /**
   A row names the run of the call that holds the environment's lock, or was left behind by a call
   that crashed or, only if some query failed, by one whose query failed.
   */
  lemma AuditRowNamesHolder(h: Hash, states: seq<LSys>, actions: seq<LAction>, k: nat, env: string)
    requires IsLRun(h, states, actions) && k <= |actions| && env in states[k].rows
    ensures var s, row := states[k], states[k].rows[env];
      row.author < |s.calls| &&
      s.calls[row.author].environment == env && s.calls[row.author].run == Some(row.lockedBy) &&
      (WroteRow(s.calls[row.author].phase) || s.calls[row.author].phase.Crashed? ||
       (s.calls[row.author].phase.Errored? && !NoErrorsBefore(actions, k))) &&
      forall j :: 0 <= j < |s.calls| && HasRowFor(s.calls[j], env) ==> j == row.author
  {
    LocksAlwaysSafe(h, states, actions, k);
    var s := states[k];
    assert RowOk(s.calls, s.rows, env);
    if NoErrorsBefore(actions, k) { NoErrorsNoneErrored(h, states, actions, k); }
    forall j: nat | j < |s.calls| && HasRowFor(s.calls[j], env) ensures j == s.rows[env].author {
      assert WriterOk(s.calls, s.rows, j);
    }
  }

  /** The DELETE of call i takes effect, whether or not its reply arrives. */
  predicate Deletes(s: LSys, a: LAction, i: nat) {
    a == Delete(i) || (a == QueryFails(i, true) && i < |s.calls| && s.calls[i].phase.Releasing?)
  }

  /** A release deletes the row its own call wrote, or one left behind; never a later holder's. */
  lemma ReleaseDeletesOwnRow(h: Hash, states: seq<LSys>, actions: seq<LAction>, k: nat, i: nat)
    requires IsLRun(h, states, actions) && k < |actions| && Deletes(states[k], actions[k], i)
    ensures i < |states[k].calls| && states[k].calls[i].environment !in states[k + 1].rows
    ensures states[k].calls[i].environment in states[k].rows ==>
      var author := states[k].rows[states[k].calls[i].environment].author;
      author < |states[k].calls| &&
      (author == i || states[k].calls[author].phase.Crashed? || states[k].calls[author].phase.Errored?) &&
      (states[k].calls[i].run.Some? ==> author == i)
  {
    LocksAlwaysSafe(h, states, actions, k);
    assert LStepAt(h, states, actions, k);
    var s := states[k];
    var env := s.calls[i].environment;
    assert RowOk(s.calls, s.rows, env) && WriterOk(s.calls, s.rows, i);
    if env in s.rows && WroteRow(s.calls[s.rows[env].author].phase) { OneOwner(h, s, i, s.rows[env].author); }
  }
}
