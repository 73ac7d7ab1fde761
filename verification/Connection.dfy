/**
 Database.transaction and Database.execute of src/multiplayer/db/connection.py: one SQLite
 connection, one lock, a worker that runs calls in submission order, and tasks that can be
 cancelled at any await. Each action below is one stretch of code between two awaits, or one
 call run by the worker, so a run is an arbitrary interleaving.
 */
module Connection {
  import opened Prelude

  type Task = nat
  /** One invocation of transaction(), or of execute() outside one. */
  type Unit = nat

  datatype Sql = Begin | Commit | Rollback | Statement(text: string)

  datatype Call = Call(id: nat, unit: Unit, sql: Sql)

  /** Where a task stands: not inside Database code, or suspended at one of its awaits. */
  datatype Pc =
    | Idle
    | WaitLockTx                              // transaction(): awaiting _connection_lock
    | WaitLockExec(text: string)              // execute() without ownership: awaiting _connection_lock
    | AwaitBegin(unit: Unit, call: nat)
    | Body(unit: Unit)                        // inside the with block, running caller code
    | AwaitBody(unit: Unit, call: nat)        // inside the with block, awaiting an execute()
    | AwaitCommit(unit: Unit, call: nat)
    | AwaitUndo(unit: Unit, call: nat)        // awaiting the except branch's ROLLBACK
    | AwaitFinal(unit: Unit, call: nat)       // awaiting the finally block's ROLLBACK
    | Leaked(unit: Unit)                      // cancelled there: left without releasing the lock
    | AwaitLeaked(unit: Unit, call: nat)
    | AwaitAuto(unit: Unit, call: nat)        // execute() without ownership, lock held

  /** SQLite's side of an open transaction: who began it, and what it would commit. */
  datatype Open = Open(unit: Unit, statements: seq<Call>)

  /** What has happened to the data: statements that succeeded, those that are durable, units whose COMMIT did. */
  datatype Log = Log(executed: seq<Call>, durable: seq<Call>, committed: set<Unit>)
  {
    function Commits(open: Open): Log {
      Log(executed, durable + open.statements, committed + {open.unit})
    }

    function RunsInside(call: Call): Log {
      Log(executed + [call], durable, committed)
    }

    /** Autocommit: durable at once. */
    function RunsAlone(call: Call): Log {
      Log(executed + [call], durable + [call], committed)
    }
  }

  /** The connection as SQLite sees it. */
  datatype Sqlite = Sqlite(connection: Option<Open>, log: Log)

  datatype State = State(
    lock: Option<Task>,
    owner: Option<Task>,
    pcs: map<Task, Pc>,
    queue: seq<Call>,
    results: map<nat, bool>,
    db: Sqlite,
    transactional: set<Unit>,
    nextCall: nat,
    nextUnit: Unit)
  {
    function PcOf(t: Task): Pc {
      if t in pcs then pcs[t] else Idle
    }

    function At(t: Task, pc: Pc): State {
      this.(pcs := pcs[t := pc])
    }

    /** conn.execute: the call joins the worker's queue before the task suspends. */
    function Enqueue(unit: Unit, sql: Sql): State {
      this.(queue := queue + [Call(nextCall, unit, sql)], nextCall := nextCall + 1)
    }
  }

  const INITIAL := State(None, None, map[], [], map[], Sqlite(None, Log([], [], {})), {}, 0, 0)

  datatype Action =
    | CallTransaction(task: Task)
    | CallExecute(task: Task, text: string)
    | Acquire(task: Task)
    | Resume(task: Task)               // the awaited call has finished
    | Cancel(task: Task)               // CancelledError at the await
    | BodyReturns(task: Task)
    | BodyRaises(task: Task)
    | Work(ok: bool)                   // the worker runs the oldest call; ok when SQLite may decide

  // ---- The worker

  /**
   Run one call, and whether it succeeded. BEGIN, COMMIT and statements may fail without
   effect; ROLLBACK of an open transaction may not.
   */
  function RunCall(db: Sqlite, call: Call, ok: bool): (Sqlite, bool) {
    var (open, log) := (db.connection, db.log);
    match call.sql
    case Begin => if ok && open.None? then (Sqlite(Some(Open(call.unit, [])), log), true) else (db, false)
    case Commit => if ok && open.Some? then (Sqlite(None, log.Commits(open.value)), true) else (db, false)
    case Rollback => (Sqlite(None, log), open.Some?)
    case Statement(_) =>
      if !ok then (db, false)
      else if open.None? then (Sqlite(None, log.RunsAlone(call)), true)
      else (Sqlite(Some(Open(open.value.unit, open.value.statements + [call])), log.RunsInside(call)), true)
  }

  // ---- The tasks

  predicate Awaiting(pc: Pc) {
    pc.AwaitBegin? || pc.AwaitBody? || pc.AwaitCommit? || pc.AwaitUndo? || pc.AwaitFinal?
    || pc.AwaitLeaked? || pc.AwaitAuto?
  }

  /** Leave the try block: queue the finally block's ROLLBACK. */
  function Unwind(s: State, t: Task, unit: Unit): State {
    s.Enqueue(unit, Rollback).At(t, AwaitFinal(unit, s.nextCall))
  }

  /** The except branch: queue its ROLLBACK. */
  function Undo(s: State, t: Task, unit: Unit): State {
    s.Enqueue(unit, Rollback).At(t, AwaitUndo(unit, s.nextCall))
  }

  function Release(s: State, t: Task): State {
    s.(lock := None).At(t, Idle)
  }

  predicate Enabled(s: State, a: Action) {
    match a
    case CallTransaction(t) => s.PcOf(t).Idle? && s.owner != Some(t)
    case CallExecute(t, _) => s.PcOf(t).Idle? || s.PcOf(t).Body? || s.PcOf(t).Leaked?
    case Acquire(t) => s.lock.None? && (s.PcOf(t).WaitLockTx? || s.PcOf(t).WaitLockExec?)
    case Resume(t) => Awaiting(s.PcOf(t)) && s.PcOf(t).call in s.results
    case Cancel(t) => Awaiting(s.PcOf(t)) || s.PcOf(t).WaitLockTx? || s.PcOf(t).WaitLockExec?
    case BodyReturns(t) => s.PcOf(t).Body?
    case BodyRaises(t) => s.PcOf(t).Body?
    case Work(_) => s.queue != []
  }

  function DoAcquire(s: State, t: Task): State
    requires s.PcOf(t).WaitLockTx? || s.PcOf(t).WaitLockExec?
  {
    var held := s.(lock := Some(t), nextUnit := s.nextUnit + 1);
    match s.PcOf(t)
    case WaitLockExec(text) =>
      held.Enqueue(s.nextUnit, Statement(text)).At(t, AwaitAuto(s.nextUnit, s.nextCall))
    case _ =>
      held.(owner := Some(t), transactional := s.transactional + {s.nextUnit})
          .Enqueue(s.nextUnit, Begin).At(t, AwaitBegin(s.nextUnit, s.nextCall))
  }

  /** execute(): straight to the worker for the owner of the transaction, through the lock for anyone else. */
  function DoExecute(s: State, t: Task, text: string): State {
    if s.owner != Some(t) then s.At(t, WaitLockExec(text))
    else
      match s.PcOf(t)
      case Body(unit) => s.Enqueue(unit, Statement(text)).At(t, AwaitBody(unit, s.nextCall))
      case _ =>
        s.(nextUnit := s.nextUnit + 1).Enqueue(s.nextUnit, Statement(text)).At(t, AwaitLeaked(s.nextUnit, s.nextCall))
  }

  function DoResume(s: State, t: Task, ok: bool): State
    requires Awaiting(s.PcOf(t))
  {
    match s.PcOf(t)
    case AwaitBegin(unit, _) => if ok then s.At(t, Body(unit)) else Unwind(s, t, unit)
    case AwaitBody(unit, _) => s.At(t, Body(unit))
    case AwaitCommit(unit, _) => if ok then Unwind(s, t, unit) else Undo(s, t, unit)
    case AwaitUndo(unit, _) => Unwind(s, t, unit)
    case AwaitFinal(_, _) => Release(s.(owner := None), t)
    case AwaitLeaked(unit, _) => s.At(t, Leaked(unit))
    case AwaitAuto(_, _) => Release(s, t)
  }

  function DoCancel(s: State, t: Task): State {
    match s.PcOf(t)
    case AwaitBegin(unit, _) => Unwind(s, t, unit)
    case AwaitBody(unit, _) => s.At(t, Body(unit))
    case AwaitCommit(unit, _) => Undo(s, t, unit)
    case AwaitUndo(unit, _) => Unwind(s, t, unit)
    case AwaitFinal(unit, _) => s.At(t, Leaked(unit))
    case AwaitLeaked(unit, _) => s.At(t, Leaked(unit))
    case AwaitAuto(_, _) => Release(s, t)
    case _ => s.At(t, Idle)
  }

  function Do(s: State, a: Action): State
    requires Enabled(s, a)
  {
    match a
    case CallTransaction(t) => s.At(t, WaitLockTx)
    case CallExecute(t, text) => DoExecute(s, t, text)
    case Acquire(t) => DoAcquire(s, t)
    case Resume(t) => DoResume(s, t, s.results[s.PcOf(t).call])
    case Cancel(t) => DoCancel(s, t)
    case BodyReturns(t) => s.Enqueue(s.PcOf(t).unit, Commit).At(t, AwaitCommit(s.PcOf(t).unit, s.nextCall))
    case BodyRaises(t) => Undo(s, t, s.PcOf(t).unit)
    case Work(ok) =>
      var (db, result) := RunCall(s.db, s.queue[0], ok);
      s.(queue := s.queue[1..], results := s.results[s.queue[0].id := result], db := db)
  }

  /** The state after any schedule; what is not enabled does not happen. */
  function Run(actions: seq<Action>): State {
    if actions == [] then INITIAL
    else
      var s, a := Run(actions[..|actions| - 1]), actions[|actions| - 1];
      if Enabled(s, a) then Do(s, a) else s
  }

  // ---- What the queue may still do

  function UnitOf(connection: Option<Open>): Option<Unit> {
    if connection.Some? then Some(connection.value.unit) else None
  }

  function OpenUnit(s: State): Option<Unit> {
    UnitOf(s.db.connection)
  }

  /** Every queued call, whichever calls before it fail, meets the connection as its unit expects it. */
  ghost predicate Safe(open: Option<Unit>, q: seq<Call>, transactional: set<Unit>)
    decreases |q|
  {
    if q == [] then true
    else
      var call, rest := q[0], q[1..];
      match call.sql
      case Begin => open.None? && Safe(Some(call.unit), rest, transactional) && Safe(None, rest, transactional)
      case Commit => open == Some(call.unit) && Safe(open, rest, transactional) && Safe(None, rest, transactional)
      case Rollback => (open.None? || open == Some(call.unit)) && Safe(None, rest, transactional)
      case Statement(_) =>
        && open == (if call.unit in transactional then Some(call.unit) else None)
        && Safe(open, rest, transactional)
  }

  /** The transactions that may be open once the queue has drained. */
  ghost function Ends(open: Option<Unit>, q: seq<Call>): set<Option<Unit>>
    decreases |q|
  {
    if q == [] then {open}
    else
      var call, rest := q[0], q[1..];
      match call.sql
      case Begin => Ends(Some(call.unit), rest) + Ends(None, rest)
      case Commit => Ends(open, rest) + Ends(None, rest)
      case Rollback => Ends(None, rest)
      case Statement(_) => Ends(open, rest)
  }

  lemma {:induction false} SafeAppend(open: Option<Unit>, q: seq<Call>, call: Call, transactional: set<Unit>)
    requires Safe(open, q, transactional)
    requires forall e <- Ends(open, q) :: Safe(e, [call], transactional)
    ensures Safe(open, q + [call], transactional)
    decreases |q|
  {
    if q == [] {
      assert q + [call] == [call];
    } else {
      var rest := q[1..];
      assert (q + [call])[1..] == rest + [call];
      match q[0].sql
      case Begin => SafeAppend(Some(q[0].unit), rest, call, transactional); SafeAppend(None, rest, call, transactional);
      case Commit => SafeAppend(open, rest, call, transactional); SafeAppend(None, rest, call, transactional);
      case Rollback => SafeAppend(None, rest, call, transactional);
      case Statement(_) => SafeAppend(open, rest, call, transactional);
    }
  }

  lemma {:induction false} EndsAppend(open: Option<Unit>, q: seq<Call>, call: Call, e: Option<Unit>)
    ensures e in Ends(open, q + [call]) <==> exists m <- Ends(open, q) :: e in Ends(m, [call])
    decreases |q|
  {
    if q == [] {
      assert q + [call] == [call];
    } else {
      var rest := q[1..];
      assert (q + [call])[1..] == rest + [call];
      EndsAppend(open, rest, call, e);
      EndsAppend(None, rest, call, e);
      EndsAppend(Some(q[0].unit), rest, call, e);
    }
  }

  // ---- The invariant

  /** Inside Database code with the lock held. */
  predicate Holds(pc: Pc) {
    !(pc.Idle? || pc.WaitLockTx? || pc.WaitLockExec?)
  }

  function Holder(s: State): Pc {
    if s.lock.Some? then s.PcOf(s.lock.value) else Idle
  }

  ghost predicate Locked(s: State) {
    && (forall t: Task :: Holds(s.PcOf(t)) <==> s.lock == Some(t))
    && s.owner == (if Holder(s).AwaitAuto? then None else s.lock)
  }

  ghost predicate Numbered(queue: seq<Call>, results: map<nat, bool>, nextCall: nat, pc: Pc) {
    && (forall i, j | 0 <= i < j < |queue| :: queue[i].id < queue[j].id)
    && (forall call <- queue :: call.id < nextCall && call.id !in results)
    && (forall id <- results :: id < nextCall)
    && (Awaiting(pc) ==> pc.call < nextCall)
  }

  /** What may be open once the queue has drained, by where the holder of the lock stands. */
  predicate Allowed(pc: Pc, e: Option<Unit>) {
    match pc
    case AwaitBegin(unit, _) => e.None? || e == Some(unit)
    case Body(unit) => e == Some(unit)
    case AwaitBody(unit, _) => e == Some(unit)
    case AwaitCommit(unit, _) => e.None? || e == Some(unit)
    case _ => e.None?
  }

  predicate OnlyLoneStatements(queue: seq<Call>, transactional: set<Unit>) {
    forall call <- queue :: call.sql.Statement? && call.unit !in transactional
  }

  /** The queue is safe and ends where the holder expects it to. */
  ghost predicate Planned(open: Option<Unit>, queue: seq<Call>, transactional: set<Unit>, pc: Pc) {
    && Safe(open, queue, transactional)
    && (forall e <- Ends(open, queue) :: Allowed(pc, e))
    && (pc.Idle? || pc.AwaitAuto? ==> open.None? && OnlyLoneStatements(queue, transactional))
    && (pc.AwaitBegin? || pc.Body? || pc.AwaitBody? || pc.AwaitCommit? || pc.AwaitUndo? || pc.AwaitFinal? ==>
          pc.unit in transactional)
  }

  /** The awaited BEGIN, COMMIT or last ROLLBACK is the last call queued, and its result says what came of it. */
  ghost predicate Answered(open: Option<Unit>, queue: seq<Call>, results: map<nat, bool>, pc: Pc, committed: set<Unit>) {
    && (pc.AwaitBegin? ==>
          if pc.call in results then queue == [] && open == (if results[pc.call] then Some(pc.unit) else None)
          else queue != [] && queue[|queue| - 1] == Call(pc.call, pc.unit, Begin))
    && (pc.AwaitCommit? ==>
          if pc.call in results then results[pc.call] ==> pc.unit in committed
          else queue != [] && queue[|queue| - 1] == Call(pc.call, pc.unit, Commit))
    && (pc.AwaitFinal? ==>
          if pc.call in results then queue == []
          else queue != [] && queue[|queue| - 1].id == pc.call)
  }

  /** The calls of one unit, in order. */
  function Of(unit: Unit, calls: seq<Call>): seq<Call> {
    if calls == [] then []
    else
      var n := |calls| - 1;
      Of(unit, calls[..n]) + if calls[n].unit == unit then [calls[n]] else []
  }

  ghost predicate Untouched(log: Log, unit: Unit) {
    Of(unit, log.executed) == [] && Of(unit, log.durable) == [] && unit !in log.committed
  }

  /** Units are used once: what has not started, or is still queued to start, has left no mark. */
  ghost predicate Fresh(log: Log, open: Option<Unit>, queue: seq<Call>, transactional: set<Unit>, nextUnit: Unit) {
    && (forall unit | nextUnit <= unit :: Untouched(log, unit) && unit !in transactional)
    && (forall call <- queue :: call.unit < nextUnit)
    && (forall call <- queue | call.sql.Begin? || (call.sql.Statement? && call.unit !in transactional) ::
          Untouched(log, call.unit))
    && (forall call <- queue | call.sql.Begin? :: open.None? && call.unit in transactional)
    && (forall i, j | 0 <= i < j < |queue| && queue[i].sql.Begin? :: !queue[j].sql.Begin?)
    && (forall i, j | 0 <= i < j < |queue| && queue[i].unit !in transactional :: queue[i].unit != queue[j].unit)
  }

  /** All or nothing: a unit's statements are durable exactly when it committed, or never was a transaction. */
  ghost predicate AllOrNothing(log: Log, transactional: set<Unit>, unit: Unit) {
    Of(unit, log.durable) == if unit in transactional && unit !in log.committed then [] else Of(unit, log.executed)
  }

  ghost predicate Ledger(log: Log, connection: Option<Open>, transactional: set<Unit>, nextUnit: Unit) {
    && (forall unit :: AllOrNothing(log, transactional, unit))
    && log.committed <= transactional
    && (connection.Some? ==>
          var open := connection.value;
          open.unit in transactional && open.unit !in log.committed && open.unit < nextUnit
          && open.statements == Of(open.unit, log.executed))
  }

  /** Serial: between two durable statements of one unit stand only statements of that unit. */
  ghost predicate Serial(calls: seq<Call>) {
    forall i, j, k | 0 <= i < j < k < |calls| && calls[i].unit == calls[k].unit :: calls[j].unit == calls[i].unit
  }

  ghost predicate Inv(s: State) {
    && Locked(s)
    && Numbered(s.queue, s.results, s.nextCall, Holder(s))
    && Planned(OpenUnit(s), s.queue, s.transactional, Holder(s))
    && Answered(OpenUnit(s), s.queue, s.results, Holder(s), s.db.log.committed)
    && Fresh(s.db.log, OpenUnit(s), s.queue, s.transactional, s.nextUnit)
    && Ledger(s.db.log, s.db.connection, s.transactional, s.nextUnit)
    && Serial(s.db.log.durable)
  }

  // ---- Queueing one call

  lemma PlannedQueues(open: Option<Unit>, queue: seq<Call>, transactional: set<Unit>, pc: Pc, call: Call, next: Pc)
    requires Planned(open, queue, transactional, pc)
    requires forall e <- Ends(open, queue) :: Safe(e, [call], transactional)
    requires forall e <- Ends(open, queue) :: forall e' <- Ends(e, [call]) :: Allowed(next, e')
    requires next.AwaitAuto? ==> (pc.Idle? && call.sql.Statement? && call.unit !in transactional)
    requires Awaiting(next) && (next.AwaitAuto? || next.AwaitLeaked? || next.unit in transactional)
    ensures Planned(open, queue + [call], transactional, next)
  {
    SafeAppend(open, queue, call, transactional);
    forall e <- Ends(open, queue + [call]) ensures Allowed(next, e) {
      EndsAppend(open, queue, call, e);
    }
  }

  lemma LoneStatementQueues(open: Option<Unit>, queue: seq<Call>, transactional: set<Unit>, pc: Pc, call: Call, next: Pc)
    requires Planned(open, queue, transactional, pc) && (pc.Idle? || pc.Leaked?)
    requires call.sql.Statement? && call.unit !in transactional
    requires next.AwaitLeaked? || (next.AwaitAuto? && pc.Idle?)
    ensures Planned(open, queue + [call], transactional, next)
  {
    PlannedQueues(open, queue, transactional, pc, call, next);
  }

  lemma BeginQueues(open: Option<Unit>, queue: seq<Call>, transactional: set<Unit>, call: Call, next: Pc)
    requires Planned(open, queue, transactional, Idle)
    requires call.sql.Begin? && call.unit in transactional && next == AwaitBegin(call.unit, call.id)
    ensures Planned(open, queue + [call], transactional, next)
  {
    PlannedQueues(open, queue, transactional, Idle, call, next);
  }

  lemma NumberedQueues(queue: seq<Call>, results: map<nat, bool>, nextCall: nat, pc: Pc, call: Call, next: Pc)
    requires Numbered(queue, results, nextCall, pc) && call.id == nextCall
    requires Awaiting(next) && next.call == nextCall
    ensures Numbered(queue + [call], results, nextCall + 1, next)
  {
  }

  lemma FreshQueues(log: Log, open: Option<Unit>, queue: seq<Call>, transactional: set<Unit>, nextUnit: Unit, call: Call)
    requires Fresh(log, open, queue, transactional, nextUnit)
    requires call.unit in transactional && call.unit < nextUnit && !call.sql.Begin?
    ensures Fresh(log, open, queue + [call], transactional, nextUnit)
  {
  }

  lemma FreshQueuesNew(log: Log, open: Option<Unit>, queue: seq<Call>, transactional: set<Unit>, nextUnit: Unit, call: Call)
    requires Fresh(log, open, queue, transactional, nextUnit)
    requires call.unit == nextUnit && call.sql.Statement?
    ensures Fresh(log, open, queue + [call], transactional, nextUnit + 1)
  {
  }

  lemma FreshQueuesBegin(log: Log, open: Option<Unit>, queue: seq<Call>, transactional: set<Unit>, nextUnit: Unit, call: Call)
    requires Fresh(log, open, queue, transactional, nextUnit)
    requires open.None? && OnlyLoneStatements(queue, transactional)
    requires call.unit == nextUnit && call.sql.Begin?
    ensures Fresh(log, open, queue + [call], transactional + {nextUnit}, nextUnit + 1)
  {
  }

  /** The holder goes from one place inside to another. */
  lemma HolderStays(s: State, s': State, t: Task, pc: Pc)
    requires Locked(s) && s.lock == Some(t) && Holds(pc) && s'.pcs == s.pcs[t := pc]
    requires s'.lock == s.lock && s'.owner == s.owner && !pc.AwaitAuto? && !s.PcOf(t).AwaitAuto?
    ensures Locked(s') && Holder(s') == pc
  {
    assert forall u: Task :: u != t ==> s'.PcOf(u) == s.PcOf(u);
  }

  /** A task takes the free lock. */
  lemma LockTaken(s: State, s': State, t: Task, pc: Pc)
    requires Locked(s) && s.lock.None? && Holds(pc) && s'.pcs == s.pcs[t := pc]
    requires s'.lock == Some(t) && s'.owner == (if pc.AwaitAuto? then None else Some(t))
    ensures Locked(s') && Holder(s') == pc
  {
    assert forall u: Task :: u != t ==> s'.PcOf(u) == s.PcOf(u);
  }

  /** The holder gives the lock back. */
  lemma LockGiven(s: State, s': State, t: Task)
    requires Locked(s) && s.lock == Some(t) && s'.pcs == s.pcs[t := Idle] && s'.lock.None? && s'.owner.None?
    ensures Locked(s') && Holder(s') == Idle
  {
    assert forall u: Task :: u != t ==> s'.PcOf(u) == s.PcOf(u);
  }

  /** The holder queues one call of its transaction and awaits it. */
  lemma HolderQueues(s: State, t: Task, unit: Unit, sql: Sql, pc: Pc)
    requires Inv(s) && s.lock == Some(t) && !s.PcOf(t).AwaitAuto?
    requires !sql.Begin? && unit in s.transactional
    requires Awaiting(pc) && !pc.AwaitAuto? && !pc.AwaitBegin? && !pc.AwaitLeaked? && pc.unit == unit
    requires pc.call == s.nextCall && (pc.AwaitCommit? ==> sql.Commit?)
    requires forall e <- Ends(OpenUnit(s), s.queue) :: Safe(e, [Call(s.nextCall, unit, sql)], s.transactional)
    requires forall e <- Ends(OpenUnit(s), s.queue) ::
               forall e' <- Ends(e, [Call(s.nextCall, unit, sql)]) :: Allowed(pc, e')
    ensures Inv(s.Enqueue(unit, sql).At(t, pc))
  {
    var call := Call(s.nextCall, unit, sql);
    var s' := s.Enqueue(unit, sql).At(t, pc);
    HolderStays(s, s', t, pc);
    PlannedQueues(OpenUnit(s), s.queue, s.transactional, Holder(s), call, pc);
    assert unit < s.nextUnit;
    NumberedQueues(s.queue, s.results, s.nextCall, Holder(s), call, pc);
    FreshQueues(s.db.log, OpenUnit(s), s.queue, s.transactional, s.nextUnit, call);
  }

  /** A lone execute() of a task whose lock was never given back. */
  lemma LeakedQueues(s: State, t: Task, text: string)
    requires Inv(s) && s.lock == Some(t) && s.PcOf(t).Leaked?
    ensures Inv(s.(nextUnit := s.nextUnit + 1).Enqueue(s.nextUnit, Statement(text))
                 .At(t, AwaitLeaked(s.nextUnit, s.nextCall)))
  {
    var call, pc := Call(s.nextCall, s.nextUnit, Statement(text)), AwaitLeaked(s.nextUnit, s.nextCall);
    var s' := s.(nextUnit := s.nextUnit + 1).Enqueue(s.nextUnit, Statement(text)).At(t, pc);
    HolderStays(s, s', t, pc);
    LoneStatementQueues(OpenUnit(s), s.queue, s.transactional, Holder(s), call, pc);
    NumberedQueues(s.queue, s.results, s.nextCall, Holder(s), call, pc);
    FreshQueuesNew(s.db.log, OpenUnit(s), s.queue, s.transactional, s.nextUnit, call);
  }

  lemma AcquireAuto(s: State, t: Task)
    requires Inv(s) && Enabled(s, Acquire(t)) && s.PcOf(t).WaitLockExec?
    ensures Inv(DoAcquire(s, t))
  {
    var call, pc := Call(s.nextCall, s.nextUnit, Statement(s.PcOf(t).text)), AwaitAuto(s.nextUnit, s.nextCall);
    var s' := DoAcquire(s, t);
    LockTaken(s, s', t, pc);
    LoneStatementQueues(OpenUnit(s), s.queue, s.transactional, Holder(s), call, pc);
    NumberedQueues(s.queue, s.results, s.nextCall, Holder(s), call, pc);
    FreshQueuesNew(s.db.log, OpenUnit(s), s.queue, s.transactional, s.nextUnit, call);
  }

  /** Marking an unused unit as transactional changes nothing for the calls already queued. */
  lemma {:induction false} SafeWithNewUnit(open: Option<Unit>, q: seq<Call>, transactional: set<Unit>, unit: Unit)
    requires Safe(open, q, transactional) && forall call <- q :: call.unit != unit
    ensures Safe(open, q, transactional + {unit})
    decreases |q|
  {
    if q != [] {
      var rest := q[1..];
      match q[0].sql
      case Begin => SafeWithNewUnit(Some(q[0].unit), rest, transactional, unit);
                    SafeWithNewUnit(None, rest, transactional, unit);
      case Commit => SafeWithNewUnit(open, rest, transactional, unit); SafeWithNewUnit(None, rest, transactional, unit);
      case Rollback => SafeWithNewUnit(None, rest, transactional, unit);
      case Statement(_) => SafeWithNewUnit(open, rest, transactional, unit);
    }
  }

  lemma LedgerWithNewUnit(log: Log, connection: Option<Open>, transactional: set<Unit>, unit: Unit)
    requires Ledger(log, connection, transactional, unit) && Untouched(log, unit)
    ensures Ledger(log, connection, transactional + {unit}, unit + 1)
  {
    forall u ensures AllOrNothing(log, transactional + {unit}, u) {
      assert AllOrNothing(log, transactional, u);
    }
  }

  lemma AcquireTx(s: State, t: Task)
    requires Inv(s) && Enabled(s, Acquire(t)) && s.PcOf(t).WaitLockTx?
    ensures Inv(DoAcquire(s, t))
  {
    var unit := s.nextUnit;
    var call, pc := Call(s.nextCall, unit, Begin), AwaitBegin(unit, s.nextCall);
    var s' := DoAcquire(s, t);
    LockTaken(s, s', t, pc);
    SafeWithNewUnit(OpenUnit(s), s.queue, s.transactional, unit);
    BeginQueues(OpenUnit(s), s.queue, s'.transactional, call, pc);
    NumberedQueues(s.queue, s.results, s.nextCall, Holder(s), call, pc);
    FreshQueuesBegin(s.db.log, OpenUnit(s), s.queue, s.transactional, unit, call);
    LedgerWithNewUnit(s.db.log, s.db.connection, s.transactional, unit);
  }

  // ---- Moving without queueing

  /** A task that does not hold the lock moves between places where it does not hold it. */
  lemma OutsiderMoves(s: State, t: Task, pc: Pc)
    requires Inv(s) && !Holds(s.PcOf(t)) && !Holds(pc)
    ensures Inv(s.At(t, pc))
  {
    var s' := s.At(t, pc);
    assert Holder(s') == Holder(s);
    assert forall u: Task :: u != t ==> s'.PcOf(u) == s.PcOf(u);
  }

  /** The holder moves on to caller code. */
  lemma HolderMoves(s: State, t: Task, pc: Pc)
    requires Inv(s) && s.lock == Some(t) && !s.PcOf(t).AwaitAuto?
    requires pc.Body? || pc.Leaked?
    requires pc.Body? ==> pc.unit in s.transactional
    requires forall e <- Ends(OpenUnit(s), s.queue) :: Allowed(pc, e)
    ensures Inv(s.At(t, pc))
  {
    var s' := s.At(t, pc);
    HolderStays(s, s', t, pc);
  }

  lemma Releases(s: State, t: Task)
    requires Inv(s) && s.lock == Some(t)
    requires s.PcOf(t).AwaitAuto? || (s.PcOf(t).AwaitFinal? && s.PcOf(t).call in s.results)
    ensures Inv(Release(s.(owner := None), t))
  {
    var s' := Release(s.(owner := None), t);
    LockGiven(s, s', t);
    assert s.PcOf(t).AwaitFinal? ==> OpenUnit(s) in Ends(OpenUnit(s), s.queue);
  }

  // ---- The worker keeps it

  lemma {:induction false} OfAppend(unit: Unit, a: seq<Call>, b: seq<Call>)
    ensures Of(unit, a + b) == Of(unit, a) + Of(unit, b)
  {
    if b == [] {
      assert a + b == a;
    } else {
      var n := |b| - 1;
      assert (a + b)[..|a| + n] == a + b[..n];
      OfAppend(unit, a, b[..n]);
    }
  }

  lemma OfAppendAll(a: seq<Call>, b: seq<Call>)
    ensures forall unit :: Of(unit, a + b) == Of(unit, a) + Of(unit, b)
  {
    forall unit ensures Of(unit, a + b) == Of(unit, a) + Of(unit, b) {
      OfAppend(unit, a, b);
    }
  }

  lemma {:induction false} OfMember(unit: Unit, calls: seq<Call>)
    ensures forall call <- Of(unit, calls) :: call.unit == unit && call in calls
    ensures forall call <- calls | call.unit == unit :: call in Of(unit, calls)
  {
    if calls != [] {
      OfMember(unit, calls[..|calls| - 1]);
    }
  }

  lemma {:induction false} OfOwn(unit: Unit, u: Unit, calls: seq<Call>)
    requires forall call <- calls :: call.unit == unit
    ensures Of(u, calls) == if u == unit then calls else []
  {
    if calls != [] {
      OfOwn(unit, u, calls[..|calls| - 1]);
      assert calls == calls[..|calls| - 1] + [calls[|calls| - 1]];
    }
  }

  lemma OfExtends(calls: seq<Call>, block: seq<Call>, unit: Unit)
    requires forall call <- block :: call.unit == unit
    ensures forall u :: Of(u, calls + block) == if u == unit then Of(u, calls) + block else Of(u, calls)
  {
    OfAppendAll(calls, block);
    forall u ensures Of(u, block) == if u == unit then block else [] {
      OfOwn(unit, u, block);
    }
  }

  /** Every unit but one is as untouched as before. */
  ghost predicate TouchesOnly(log: Log, next: Log, unit: Unit) {
    forall u | u != unit && Untouched(log, u) :: Untouched(next, u)
  }

  lemma LedgerCommits(log: Log, open: Open, transactional: set<Unit>, nextUnit: Unit)
    requires Ledger(log, Some(open), transactional, nextUnit)
    ensures Ledger(log.Commits(open), None, transactional, nextUnit)
    ensures TouchesOnly(log, log.Commits(open), open.unit)
  {
    OfMember(open.unit, log.executed);
    OfExtends(log.durable, open.statements, open.unit);
    hide Of;
    forall u ensures AllOrNothing(log.Commits(open), transactional, u) {
      assert AllOrNothing(log, transactional, u);
    }
  }

  lemma LedgerRunsInside(log: Log, open: Open, transactional: set<Unit>, nextUnit: Unit, call: Call)
    requires Ledger(log, Some(open), transactional, nextUnit) && call.unit == open.unit
    ensures Ledger(log.RunsInside(call), Some(Open(open.unit, open.statements + [call])), transactional, nextUnit)
    ensures TouchesOnly(log, log.RunsInside(call), call.unit)
  {
    OfExtends(log.executed, [call], call.unit);
    forall u ensures AllOrNothing(log.RunsInside(call), transactional, u) {
      assert AllOrNothing(log, transactional, u);
    }
  }

  lemma LedgerRunsAlone(log: Log, transactional: set<Unit>, nextUnit: Unit, call: Call)
    requires Ledger(log, None, transactional, nextUnit) && call.unit !in transactional
    ensures Ledger(log.RunsAlone(call), None, transactional, nextUnit)
    ensures TouchesOnly(log, log.RunsAlone(call), call.unit)
  {
    OfExtends(log.executed, [call], call.unit);
    OfExtends(log.durable, [call], call.unit);
    forall u ensures AllOrNothing(log.RunsAlone(call), transactional, u) {
      assert AllOrNothing(log, transactional, u);
    }
  }

  lemma LedgerRuns(s: State, ok: bool)
    requires Inv(s) && s.queue != []
    ensures var s' := Do(s, Work(ok)); Ledger(s'.db.log, s'.db.connection, s'.transactional, s'.nextUnit)
    ensures TouchesOnly(s.db.log, Do(s, Work(ok)).db.log, s.queue[0].unit)
  {
    var call := s.queue[0];
    assert call in s.queue;
    if call.sql.Commit? && s.db.connection.Some? {
      LedgerCommits(s.db.log, s.db.connection.value, s.transactional, s.nextUnit);
    } else if call.sql.Statement? && s.db.connection.Some? {
      LedgerRunsInside(s.db.log, s.db.connection.value, s.transactional, s.nextUnit, call);
    } else if call.sql.Statement? {
      LedgerRunsAlone(s.db.log, s.transactional, s.nextUnit, call);
    }
  }

  lemma FreshRuns(log: Log, next: Log, open: Option<Unit>, open': Option<Unit>, queue: seq<Call>,
                  transactional: set<Unit>, nextUnit: Unit)
    requires queue != [] && Fresh(log, open, queue, transactional, nextUnit)
    requires TouchesOnly(log, next, queue[0].unit)
    requires open.None? && open'.Some? ==> queue[0].sql.Begin?
    requires next != log ==> queue[0].unit in transactional ==> open == Some(queue[0].unit)
    ensures Fresh(next, open', queue[1..], transactional, nextUnit)
  {
    var rest := queue[1..];
    assert queue[0] in queue;
    forall i | 0 <= i < |rest| ensures rest[i] == queue[i + 1] && rest[i] in queue {
    }
  }

  lemma EndsShrink(open: Option<Unit>, open': Option<Unit>, queue: seq<Call>)
    requires queue != []
    requires match queue[0].sql
             case Begin => open' == open || open' == Some(queue[0].unit)
             case Commit => open' == open || open'.None?
             case Rollback => open'.None?
             case Statement(_) => open' == open
    requires queue[0].sql.Begin? ==> open.None?
    ensures Ends(open', queue[1..]) <= Ends(open, queue)
    ensures forall transactional | Safe(open, queue, transactional) :: Safe(open', queue[1..], transactional)
  {
  }

  lemma PlannedRuns(s: State, ok: bool)
    requires Inv(s) && s.queue != []
    ensures var s' := Do(s, Work(ok)); Planned(OpenUnit(s'), s'.queue, s'.transactional, Holder(s))
  {
    var s' := Do(s, Work(ok));
    assert s.queue[0] in s.queue;
    EndsShrink(OpenUnit(s), OpenUnit(s'), s.queue);
  }

  lemma AnsweredRuns(s: State, ok: bool)
    requires Inv(s) && s.queue != []
    ensures var s' := Do(s, Work(ok)); Answered(OpenUnit(s'), s'.queue, s'.results, Holder(s), s'.db.log.committed)
  {
    var s', pc, n := Do(s, Work(ok)), Holder(s), |s.queue| - 1;
    if n > 0 {
      assert s'.queue[n - 1] == s.queue[n] && s.queue[0].id < s.queue[n].id;
    }
  }

  lemma NumberedRuns(queue: seq<Call>, results: map<nat, bool>, nextCall: nat, pc: Pc, result: bool)
    requires queue != [] && Numbered(queue, results, nextCall, pc)
    ensures Numbered(queue[1..], results[queue[0].id := result], nextCall, pc)
  {
    assert queue[0] in queue;
    forall i | 0 <= i < |queue| - 1 ensures queue[1..][i] == queue[i + 1] && queue[i + 1].id > queue[0].id {
    }
    forall call <- queue[1..] ensures call in queue && call.id > queue[0].id {
    }
  }

  lemma SerialExtends(durable: seq<Call>, block: seq<Call>, unit: Unit)
    requires Serial(durable) && Of(unit, durable) == [] && forall call <- block :: call.unit == unit
    ensures Serial(durable + block)
  {
    OfMember(unit, durable);
    var all := durable + block;
    forall i, j, k | 0 <= i < j < k < |all| && all[i].unit == all[k].unit ensures all[j].unit == all[i].unit {
      assert i < |durable| ==> all[i] in durable;
      assert k >= |durable| ==> all[k] in block;
      assert j >= |durable| ==> all[j] in block;
    }
  }

  lemma SerialRuns(s: State, ok: bool)
    requires Inv(s) && s.queue != []
    ensures Serial(Do(s, Work(ok)).db.log.durable)
  {
    var call := s.queue[0];
    assert call in s.queue;
    assert call.sql.Statement? && s.db.connection.None? ==> Of(call.unit, s.db.log.durable) == [];
    hide Locked, Numbered, Planned, Answered, Fresh, Ledger, Serial, Of, RunCall;
    SerialCall(s.db, call, ok, s.transactional, s.nextUnit);
  }

  lemma SerialCall(db: Sqlite, call: Call, ok: bool, transactional: set<Unit>, nextUnit: Unit)
    requires Ledger(db.log, db.connection, transactional, nextUnit) && Serial(db.log.durable)
    requires call.sql.Statement? && db.connection.None? ==> Of(call.unit, db.log.durable) == []
    ensures Serial(RunCall(db, call, ok).0.log.durable)
  {
    if call.sql.Commit? && db.connection.Some? {
      var open := db.connection.value;
      assert AllOrNothing(db.log, transactional, open.unit);
      OfMember(open.unit, db.log.executed);
      hide Of, Serial;
      SerialExtends(db.log.durable, open.statements, open.unit);
    } else if call.sql.Statement? && db.connection.None? {
      hide Of, Serial;
      SerialExtends(db.log.durable, [call], call.unit);
    }
  }

  lemma WorkerFresh(s: State, ok: bool)
    requires Inv(s) && s.queue != []
    ensures var s' := Do(s, Work(ok)); Fresh(s'.db.log, OpenUnit(s'), s'.queue, s'.transactional, s'.nextUnit)
  {
    var s' := Do(s, Work(ok));
    LedgerRuns(s, ok);
    FreshRuns(s.db.log, s'.db.log, OpenUnit(s), OpenUnit(s'), s.queue, s.transactional, s.nextUnit);
  }

  lemma WorkerNumbered(s: State, ok: bool)
    requires Inv(s) && s.queue != []
    ensures var s' := Do(s, Work(ok)); Numbered(s'.queue, s'.results, s'.nextCall, Holder(s))
  {
    NumberedRuns(s.queue, s.results, s.nextCall, Holder(s), Do(s, Work(ok)).results[s.queue[0].id]);
  }

  lemma WorkerRuns(s: State, ok: bool)
    requires Inv(s) && s.queue != []
    ensures Inv(Do(s, Work(ok)))
  {
    var s' := Do(s, Work(ok));
    assert s'.pcs == s.pcs && s'.lock == s.lock && s'.owner == s.owner && Holder(s') == Holder(s);
    PlannedRuns(s, ok);
    AnsweredRuns(s, ok);
    LedgerRuns(s, ok);
    WorkerFresh(s, ok);
    SerialRuns(s, ok);
    WorkerNumbered(s, ok);
  }

  // ---- Every schedule

  /** The holder, inside its transaction's code, whose unit is the only one that may be open. */
  ghost predicate Inside(s: State, t: Task, unit: Unit) {
    && Inv(s) && s.lock == Some(t) && !s.PcOf(t).AwaitAuto? && unit in s.transactional
    && forall e <- Ends(OpenUnit(s), s.queue) :: e.None? || e == Some(unit)
  }

  lemma RollbackQueues(s: State, t: Task, unit: Unit)
    requires Inside(s, t, unit)
    ensures Inv(Unwind(s, t, unit)) && Inv(Undo(s, t, unit))
  {
    HolderQueues(s, t, unit, Rollback, AwaitFinal(unit, s.nextCall));
    HolderQueues(s, t, unit, Rollback, AwaitUndo(unit, s.nextCall));
  }

  lemma BodyIsInside(s: State, t: Task)
    requires Inv(s) && s.PcOf(t).Body?
    ensures s.owner == Some(t) && Holder(s) == s.PcOf(t) && Inside(s, t, s.PcOf(t).unit)
  {
  }

  lemma BodyExecutes(s: State, t: Task, text: string)
    requires Inv(s) && s.PcOf(t).Body?
    ensures Inv(DoExecute(s, t, text))
  {
    BodyIsInside(s, t);
    HolderQueues(s, t, s.PcOf(t).unit, Statement(text), AwaitBody(s.PcOf(t).unit, s.nextCall));
  }

  lemma BodyCommits(s: State, t: Task)
    requires Inv(s) && s.PcOf(t).Body?
    ensures Inv(Do(s, BodyReturns(t)))
  {
    BodyIsInside(s, t);
    HolderQueues(s, t, s.PcOf(t).unit, Commit, AwaitCommit(s.PcOf(t).unit, s.nextCall));
  }

  /** A task suspended inside its transaction is Inside it. */
  lemma AwaitingIsInside(s: State, t: Task)
    requires Inv(s) && Awaiting(s.PcOf(t))
    ensures s.lock == Some(t) && Holder(s) == s.PcOf(t)
    ensures !s.PcOf(t).AwaitAuto? && !s.PcOf(t).AwaitLeaked? ==> Inside(s, t, s.PcOf(t).unit)
  {
  }

  lemma ResumeKeeps(s: State, t: Task)
    requires Inv(s) && Enabled(s, Resume(t))
    ensures Inv(Do(s, Resume(t)))
  {
    AwaitingIsInside(s, t);
    match s.PcOf(t)
    case AwaitBegin(unit, call) =>
      if s.results[call] {
        HolderMoves(s, t, Body(unit));
      } else {
        RollbackQueues(s, t, unit);
      }
    case AwaitBody(unit, _) => HolderMoves(s, t, Body(unit));
    case AwaitCommit(unit, _) => RollbackQueues(s, t, unit);
    case AwaitUndo(unit, _) => RollbackQueues(s, t, unit);
    case AwaitFinal(_, _) => Releases(s, t);
    case AwaitLeaked(unit, _) => HolderMoves(s, t, Leaked(unit));
    case AwaitAuto(_, _) => Releases(s, t);
  }

  /** The statement's caller gets its turn back: in its body, or past a ROLLBACK that it did not wait for. */
  lemma CancelReturns(s: State, t: Task)
    requires Inv(s) && (s.PcOf(t).AwaitBody? || s.PcOf(t).AwaitFinal? || s.PcOf(t).AwaitLeaked?)
    ensures Inv(DoCancel(s, t))
  {
    AwaitingIsInside(s, t);
    HolderMoves(s, t, if s.PcOf(t).AwaitBody? then Body(s.PcOf(t).unit) else Leaked(s.PcOf(t).unit));
  }

  lemma CancelReleases(s: State, t: Task)
    requires Inv(s) && s.PcOf(t).AwaitAuto?
    ensures Inv(DoCancel(s, t))
  {
    AwaitingIsInside(s, t);
    assert s.(owner := None) == s;
    Releases(s, t);
  }

  lemma CancelKeeps(s: State, t: Task)
    requires Inv(s) && Awaiting(s.PcOf(t))
    ensures Inv(Do(s, Cancel(t)))
  {
    hide Inv, Inside;
    match s.PcOf(t)
    case AwaitBegin(unit, _) =>
      AwaitingIsInside(s, t);
      RollbackQueues(s, t, unit);
    case AwaitCommit(unit, _) =>
      AwaitingIsInside(s, t);
      RollbackQueues(s, t, unit);
    case AwaitUndo(unit, _) =>
      AwaitingIsInside(s, t);
      RollbackQueues(s, t, unit);
    case AwaitAuto(_, _) => CancelReleases(s, t);
    case _ => CancelReturns(s, t);
  }

  lemma ExecuteKeeps(s: State, t: Task, text: string)
    requires Inv(s) && Enabled(s, CallExecute(t, text))
    ensures Inv(DoExecute(s, t, text))
  {
    match s.PcOf(t)
    case Body(_) => BodyExecutes(s, t, text);
    case Leaked(_) => LeakedQueues(s, t, text);
    case _ => OutsiderMoves(s, t, WaitLockExec(text));
  }

  lemma ActionKeeps(s: State, a: Action)
    requires Inv(s) && Enabled(s, a)
    ensures Inv(Do(s, a))
  {
    match a
    case CallTransaction(t) => OutsiderMoves(s, t, WaitLockTx);
    case CallExecute(t, text) => ExecuteKeeps(s, t, text);
    case Acquire(t) =>
      if s.PcOf(t).WaitLockTx? {
        AcquireTx(s, t);
      } else {
        AcquireAuto(s, t);
      }
    case Resume(t) => ResumeKeeps(s, t);
    case Cancel(t) =>
      if Awaiting(s.PcOf(t)) {
        CancelKeeps(s, t);
      } else {
        OutsiderMoves(s, t, Idle);
      }
    case BodyReturns(t) => BodyCommits(s, t);
    case BodyRaises(t) => BodyIsInside(s, t); RollbackQueues(s, t, s.PcOf(t).unit);
    case Work(ok) => WorkerRuns(s, ok);
  }

  lemma {:induction false} EveryScheduleKeeps(actions: seq<Action>)
    ensures Inv(Run(actions))
  {
    if actions == [] {
      assert Ends(None, []) == {None};
    } else {
      var s, a := Run(actions[..|actions| - 1]), actions[|actions| - 1];
      EveryScheduleKeeps(actions[..|actions| - 1]);
      if Enabled(s, a) {
        ActionKeeps(s, a);
      }
    }
  }

  /**
   Isolation and atomicity, whatever the interleaving and wherever cancellation strikes: the
   durable statements are a serial sequence of units, each unit complete or absent, and a
   transaction is there exactly when its COMMIT succeeded.
   */
  lemma DurableIsSerialAndAtomic(actions: seq<Action>)
    ensures var s := Run(actions);
            && Serial(s.db.log.durable)
            && forall unit ::
                 Of(unit, s.db.log.durable) ==
                 if unit in s.transactional && unit !in s.db.log.committed then [] else Of(unit, s.db.log.executed)
  {
    EveryScheduleKeeps(actions);
    var log, tx := Run(actions).db.log, Run(actions).transactional;
    forall unit ensures Of(unit, log.durable) == if unit in tx && unit !in log.committed then [] else Of(unit, log.executed) {
      assert AllOrNothing(log, tx, unit);
    }
  }

  /** The worker never runs BEGIN inside a transaction, nor a statement in any transaction but its own. */
  lemma CallsMeetTheirTransaction(actions: seq<Action>)
    requires Run(actions).queue != []
    ensures var s := Run(actions);
            match s.queue[0].sql
            case Begin => s.db.connection.None?
            case Commit => s.db.connection.Some? && s.db.connection.value.unit == s.queue[0].unit
            case Rollback => s.db.connection.Some? ==> s.db.connection.value.unit == s.queue[0].unit
            case Statement(_) =>
              if s.queue[0].unit in s.transactional
              then s.db.connection.Some? && s.db.connection.value.unit == s.queue[0].unit
              else s.db.connection.None?
  {
    EveryScheduleKeeps(actions);
  }

  /** The lock excludes, and whoever finds it free, or gives it back, leaves no transaction open or queued. */
  lemma FreeLockMeansClosed(actions: seq<Action>)
    ensures var s := Run(actions);
            && (forall t: Task, u: Task | Holds(s.PcOf(t)) && Holds(s.PcOf(u)) :: t == u)
            && (s.lock.None? ==> s.db.connection.None? && OnlyLoneStatements(s.queue, s.transactional))
            && (forall t: Task | Enabled(s, Resume(t)) && s.PcOf(t).AwaitFinal? :: s.db.connection.None? && s.queue == [])
  {
    EveryScheduleKeeps(actions);
    var s := Run(actions);
    forall t: Task | Enabled(s, Resume(t)) && s.PcOf(t).AwaitFinal? ensures s.db.connection.None? && s.queue == [] {
      assert Holder(s) == s.PcOf(t);
      assert OpenUnit(s) in Ends(OpenUnit(s), s.queue);
    }
  }

  /** A transaction() about to leave its with block normally has committed. */
  lemma NormalReturnMeansCommitted(actions: seq<Action>, t: Task)
    requires Run(actions).PcOf(t).AwaitCommit? && Enabled(Run(actions), Resume(t))
    requires Run(actions).results[Run(actions).PcOf(t).call]
    ensures Run(actions).PcOf(t).unit in Run(actions).db.log.committed
  {
    EveryScheduleKeeps(actions);
    AwaitingIsInside(Run(actions), t);
  }

  // ---- What commits

  /** Inside the with block, or on the way into it. */
  predicate Early(pc: Pc, unit: Unit) {
    match pc
    case AwaitBegin(u, _) => u == unit
    case Body(u) => u == unit
    case AwaitBody(u, _) => u == unit
    case _ => false
  }

  /** Not committed, and no COMMIT of it queued. */
  ghost predicate NoCommit(s: State, unit: Unit) {
    unit !in s.db.log.committed && forall call <- s.queue :: call.unit == unit ==> !call.sql.Commit?
  }

  ghost predicate EarlyOpen(s: State) {
    forall t: Task, unit: Unit :: Early(s.PcOf(t), unit) ==> NoCommit(s, unit) && unit < s.nextUnit
  }

  /** No task is inside the unit's with block any more, and it did not commit: it never will. */
  ghost predicate Doomed(s: State, unit: Unit) {
    NoCommit(s, unit) && unit < s.nextUnit && forall t: Task :: !Early(s.PcOf(t), unit)
  }

  /** What a task's step queues, if anything: a COMMIT only when its block returns. */
  lemma StepQueues(s: State, a: Action) returns (more: seq<Call>)
    requires Enabled(s, a) && !a.Work?
    ensures Do(s, a).db == s.db && Do(s, a).queue == s.queue + more && s.nextUnit <= Do(s, a).nextUnit
    ensures forall call <- more :: call.sql.Commit? ==> a.BodyReturns? && s.PcOf(a.task) == Body(call.unit)
  {
    var s' := Do(s, a);
    more := if |s'.queue| == |s.queue| then [] else [s'.queue[|s.queue|]];
  }

  /** Only a COMMIT of the unit that is queued, or that its block queues by returning, ever commits it. */
  lemma StepKeepsNoCommit(s: State, a: Action, unit: Unit)
    requires Inv(s) && Enabled(s, a) && NoCommit(s, unit) && unit < s.nextUnit
    requires a.BodyReturns? ==> s.PcOf(a.task) != Body(unit)
    ensures NoCommit(Do(s, a), unit) && unit < Do(s, a).nextUnit
  {
    hide Inv;
    if a.Work? {
      WorkKeepsNoCommit(s, a.ok, unit);
    } else {
      var more := StepQueues(s, a);
      hide Do, Enabled;
    }
  }

  lemma WorkKeepsNoCommit(s: State, ok: bool, unit: Unit)
    requires Inv(s) && s.queue != [] && NoCommit(s, unit)
    ensures NoCommit(Do(s, Work(ok)), unit)
  {
    var call := s.queue[0];
    assert call in s.queue;
    assert call.sql.Commit? ==> OpenUnit(s) == Some(call.unit);
    hide Inv, Locked, Planned;
    forall c <- s.queue[1..] ensures c in s.queue {
    }
  }

  /** Where a task may be early for a unit after a step, it was before, or the unit is new. */
  lemma EarlyComesFromEarly(s: State, a: Action, t: Task, unit: Unit)
    requires Enabled(s, a) && Early(Do(s, a).PcOf(t), unit)
    ensures Early(s.PcOf(t), unit) || (a == Acquire(t) && unit == s.nextUnit)
    ensures a != BodyReturns(t) && a != BodyRaises(t)
  {
  }

  lemma StepKeepsEarlyOpen(s: State, a: Action)
    requires Inv(s) && Enabled(s, a) && EarlyOpen(s)
    ensures EarlyOpen(Do(s, a))
  {
    var s' := Do(s, a);
    forall t: Task, unit: Unit | Early(s'.PcOf(t), unit) ensures NoCommit(s', unit) && unit < s'.nextUnit {
      EarlyComesFromEarly(s, a, t, unit);
      if Early(s.PcOf(t), unit) {
        if a.BodyReturns? && s.PcOf(a.task) == Body(unit) {
          OneHolder(s, t, a.task);
        }
        StepKeepsNoCommit(s, a, unit);
      } else {
        NewUnitHasNoCommit(s, t);
      }
    }
  }

  lemma OneHolder(s: State, t: Task, u: Task)
    requires Inv(s) && Holds(s.PcOf(t)) && Holds(s.PcOf(u))
    ensures t == u
  {
  }

  lemma NewUnitHasNoCommit(s: State, t: Task)
    requires Inv(s) && Enabled(s, Acquire(t))
    ensures NoCommit(Do(s, Acquire(t)), s.nextUnit) && s.nextUnit < Do(s, Acquire(t)).nextUnit
  {
    assert Untouched(s.db.log, s.nextUnit);
  }

  lemma {:induction false} EveryScheduleIsEarlyOpen(actions: seq<Action>)
    ensures EarlyOpen(Run(actions))
  {
    if actions != [] {
      var s, a := Run(actions[..|actions| - 1]), actions[|actions| - 1];
      EveryScheduleIsEarlyOpen(actions[..|actions| - 1]);
      EveryScheduleKeeps(actions[..|actions| - 1]);
      if Enabled(s, a) {
        StepKeepsEarlyOpen(s, a);
      }
    }
  }

  lemma StepKeepsDoomed(s: State, a: Action, unit: Unit)
    requires Inv(s) && Enabled(s, a) && Doomed(s, unit)
    ensures Doomed(Do(s, a), unit)
  {
    if a.BodyReturns? {
      assert !Early(s.PcOf(a.task), unit);
    }
    StepKeepsNoCommit(s, a, unit);
    forall t: Task ensures !Early(Do(s, a).PcOf(t), unit) {
      if Early(Do(s, a).PcOf(t), unit) {
        EarlyComesFromEarly(s, a, t, unit);
        assert false;
      }
    }
  }

  lemma {:induction false} DoomedStays(actions: seq<Action>, n: nat, unit: Unit)
    requires n <= |actions| && Doomed(Run(actions[..n]), unit)
    ensures Doomed(Run(actions), unit)
  {
    if n == |actions| {
      assert actions[..n] == actions;
    } else {
      var shorter := actions[..|actions| - 1];
      assert shorter[..n] == actions[..n];
      DoomedStays(shorter, n, unit);
      EveryScheduleKeeps(shorter);
      if Enabled(Run(shorter), actions[|actions| - 1]) {
        StepKeepsDoomed(Run(shorter), actions[|actions| - 1], unit);
      }
    }
  }

  /** The ways to leave a transaction other than by its block returning. */
  predicate Abandons(s: State, a: Action, unit: Unit) {
    match a
    case BodyRaises(t) => s.PcOf(t) == Body(unit)
    case Cancel(t) => s.PcOf(t).AwaitBegin? && s.PcOf(t).unit == unit
    case Resume(t) =>
      s.PcOf(t).AwaitBegin? && s.PcOf(t).unit == unit && s.PcOf(t).call in s.results && !s.results[s.PcOf(t).call]
    case _ => false
  }

  lemma AbandoningDooms(s: State, a: Action, unit: Unit)
    requires Inv(s) && EarlyOpen(s) && Enabled(s, a) && Abandons(s, a, unit)
    ensures Doomed(Do(s, a), unit)
  {
    var t := a.task;
    StepKeepsNoCommit(s, a, unit);
    forall u: Task ensures !Early(Do(s, a).PcOf(u), unit) {
      if u != t && Early(s.PcOf(u), unit) {
        OneHolder(s, t, u);
        assert false;
      }
    }
  }

  /**
   A block that raises, and a BEGIN that fails or is cancelled, commit nothing: whatever happens afterwards, in
   whatever order, the transaction is never committed and no statement of it is durable.
   */
  lemma AbandonedNeverCommits(actions: seq<Action>, n: nat, unit: Unit)
    requires n < |actions| && Enabled(Run(actions[..n]), actions[n]) && Abandons(Run(actions[..n]), actions[n], unit)
    ensures var s := Run(actions);
            unit !in s.db.log.committed && Of(unit, s.db.log.durable) == []
  {
    var s := Run(actions[..n]);
    EveryScheduleKeeps(actions[..n]);
    EveryScheduleIsEarlyOpen(actions[..n]);
    AbandoningDooms(s, actions[n], unit);
    assert actions[..n + 1][..n] == actions[..n];
    DoomedStays(actions, n + 1, unit);
    AbandonedIsTransactional(actions, n, unit);
    DurableIsSerialAndAtomic(actions);
  }

  lemma AbandonedIsTransactional(actions: seq<Action>, n: nat, unit: Unit)
    requires n < |actions| && Enabled(Run(actions[..n]), actions[n]) && Abandons(Run(actions[..n]), actions[n], unit)
    ensures unit in Run(actions).transactional
  {
    EveryScheduleKeeps(actions[..n]);
    var s := Run(actions[..n]);
    assert Holder(s) == s.PcOf(actions[n].task);
    TransactionalStays(actions, n, unit);
  }

  lemma {:induction false} TransactionalStays(actions: seq<Action>, n: nat, unit: Unit)
    requires n <= |actions| && unit in Run(actions[..n]).transactional
    ensures unit in Run(actions).transactional
  {
    if n == |actions| {
      assert actions[..n] == actions;
    } else {
      assert actions[..|actions| - 1][..n] == actions[..n];
      TransactionalStays(actions[..|actions| - 1], n, unit);
    }
  }

  /** And only a block that returned has committed. */
  lemma {:induction false} CommittedHasReturned(actions: seq<Action>, unit: Unit)
    requires !NoCommit(Run(actions), unit) && unit < Run(actions).nextUnit
    ensures exists n, t :: 0 <= n < |actions| && actions[n] == BodyReturns(t) && Run(actions[..n]).PcOf(t) == Body(unit)
  {
    if actions != [] {
      var last := |actions| - 1;
      var s, a := Run(actions[..last]), actions[last];
      EveryScheduleKeeps(actions[..last]);
      if Enabled(s, a) && a.BodyReturns? && s.PcOf(a.task) == Body(unit) {
        assert actions[last] == BodyReturns(a.task);
      } else {
        if unit < s.nextUnit && NoCommit(s, unit) && Enabled(s, a) {
          StepKeepsNoCommit(s, a, unit);
        }
        if unit >= s.nextUnit && Enabled(s, a) {
          BornWithoutCommit(s, a, unit);
        }
        CommittedHasReturned(actions[..last], unit);
        var n, t :| 0 <= n < last && actions[..last][n] == BodyReturns(t) && Run(actions[..last][..n]).PcOf(t) == Body(unit);
        assert actions[..last][..n] == actions[..n];
      }
    }
  }

  lemma BornWithoutCommit(s: State, a: Action, unit: Unit)
    requires Inv(s) && Enabled(s, a) && s.nextUnit <= unit < Do(s, a).nextUnit
    ensures NoCommit(Do(s, a), unit)
  {
    UnusedHasNoCommit(s, unit);
    hide Inv;
    if !a.Work? {
      var more := StepQueues(s, a);
      assert !a.BodyReturns?;
      hide Do, Enabled;
    }
  }

  lemma UnusedHasNoCommit(s: State, unit: Unit)
    requires Inv(s) && s.nextUnit <= unit
    ensures NoCommit(s, unit)
  {
    assert Untouched(s.db.log, unit);
  }

  // ---- What is durable is what was asked for

  /** The text a task passed to its last execute(). */
  function Asked(actions: seq<Action>, t: Task): string {
    if actions == [] then ""
    else
      var before, a := actions[..|actions| - 1], actions[|actions| - 1];
      if a.CallExecute? && a.task == t && Enabled(Run(before), a) then a.text else Asked(before, t)
  }

  /**
   The statements that tasks asked for, each when it is its turn: inside a transaction, and for a task whose lock
   leaked, at the call; outside, once the lock is had.
   */
  function Issued(actions: seq<Action>): seq<Call> {
    if actions == [] then []
    else
      var before, a := actions[..|actions| - 1], actions[|actions| - 1];
      var s, issued := Run(before), Issued(before);
      if !Enabled(s, a) then issued
      else if a.CallExecute? && s.PcOf(a.task).Body? then
        issued + [Call(s.nextCall, s.PcOf(a.task).unit, Statement(a.text))]
      else if a.CallExecute? && s.PcOf(a.task).Leaked? then issued + [Call(s.nextCall, s.nextUnit, Statement(a.text))]
      else if a.Acquire? && s.PcOf(a.task).WaitLockExec? then
        issued + [Call(s.nextCall, s.nextUnit, Statement(Asked(before, a.task)))]
      else issued
  }

  /** Those of the calls that succeeded. */
  function Succeeded(calls: seq<Call>, results: map<nat, bool>): seq<Call> {
    if calls == [] then []
    else
      var call := calls[|calls| - 1];
      Succeeded(calls[..|calls| - 1], results) + if call.id in results && results[call.id] then [call] else []
  }

  function Statements(calls: seq<Call>): seq<Call> {
    if calls == [] then []
    else
      var call := calls[|calls| - 1];
      Statements(calls[..|calls| - 1]) + if call.sql.Statement? then [call] else []
  }

  lemma {:induction false} StatementsAppend(a: seq<Call>, b: seq<Call>)
    ensures Statements(a + b) == Statements(a) + Statements(b)
  {
    if b == [] {
      assert a + b == a;
    } else {
      var n := |b| - 1;
      StatementsAppend(a, b[..n]);
      assert (a + b)[..|a + b| - 1] == a + b[..n] && (a + b)[|a + b| - 1] == b[n];
    }
  }

  lemma {:induction false} StatementsAreAmong(calls: seq<Call>)
    ensures forall call <- Statements(calls) :: call in calls
  {
    if calls != [] {
      StatementsAreAmong(calls[..|calls| - 1]);
    }
  }

  lemma StatementsPop(q: seq<Call>)
    requires q != []
    ensures Statements(q) == (if q[0].sql.Statement? then [q[0]] else []) + Statements(q[1..])
  {
    var first := [q[0]];
    assert q == first + q[1..];
    StatementsAppend(first, q[1..]);
    assert first[..0] == [];
  }

  lemma {:induction false} SucceededAppend(a: seq<Call>, b: seq<Call>, results: map<nat, bool>)
    ensures Succeeded(a + b, results) == Succeeded(a, results) + Succeeded(b, results)
  {
    if b == [] {
      assert a + b == a;
    } else {
      var n := |b| - 1;
      SucceededAppend(a, b[..n], results);
      assert (a + b)[..|a + b| - 1] == a + b[..n] && (a + b)[|a + b| - 1] == b[n];
    }
  }

  lemma {:induction false} SucceededNone(calls: seq<Call>, results: map<nat, bool>)
    requires forall call <- calls :: call.id !in results
    ensures Succeeded(calls, results) == []
  {
    if calls != [] {
      SucceededNone(calls[..|calls| - 1], results);
    }
  }

  lemma {:induction false} SucceededStays(calls: seq<Call>, results: map<nat, bool>, id: nat, result: bool)
    requires forall call <- calls :: call.id != id
    ensures Succeeded(calls, results[id := result]) == Succeeded(calls, results)
  {
    if calls != [] {
      SucceededStays(calls[..|calls| - 1], results, id, result);
    }
  }

  /** done were answered, and what succeeded of them is what was executed; the rest is queued. */
  ghost predicate TracedBy(s: State, issued: seq<Call>, done: seq<Call>) {
    && issued == done + Statements(s.queue)
    && s.db.log.executed == Succeeded(done, s.results)
    && forall call <- done :: call.id in s.results
  }

  lemma OneStatement(call: Call)
    ensures Statements([call]) == if call.sql.Statement? then [call] else []
  {
    assert [call][..0] == [];
  }

  lemma OneSucceeded(done: seq<Call>, call: Call, results: map<nat, bool>)
    ensures Succeeded(done + [call], results)
            == Succeeded(done, results) + if call.id in results && results[call.id] then [call] else []
  {
    assert (done + [call])[..|done + [call]| - 1] == done;
  }

  /** What the worker records of a call: its result, and the call itself if it is a statement that succeeded. */
  lemma WorkRecords(s: State, ok: bool) returns (result: bool)
    requires Inv(s) && s.queue != []
    ensures var call, s' := s.queue[0], Do(s, Work(ok));
            && s'.results == s.results[call.id := result] && s'.queue == s.queue[1..]
            && s'.db.log.executed == s.db.log.executed + (if call.sql.Statement? && result then [call] else [])
            && call.id !in s.results
  {
    assert s.queue[0] in s.queue;
    result := Do(s, Work(ok)).results[s.queue[0].id];
    hide Inv;
  }

  lemma WorkTraces(s: State, ok: bool, issued: seq<Call>, done: seq<Call>) returns (next: seq<Call>)
    requires Inv(s) && s.queue != [] && TracedBy(s, issued, done)
    ensures TracedBy(Do(s, Work(ok)), issued, next)
  {
    var call, s' := s.queue[0], Do(s, Work(ok));
    var result := WorkRecords(s, ok);
    hide Inv, Do, Statements, Succeeded;
    StatementsPop(s.queue);
    SucceededStays(done, s.results, call.id, result);
    if call.sql.Statement? {
      next := done + [call];
      OneSucceeded(done, call, s'.results);
      Regrouped(done, [call], Statements(s'.queue));
    } else {
      next := done;
      Regrouped(done, [], Statements(s'.queue));
    }
  }

  lemma Regrouped(a: seq<Call>, b: seq<Call>, c: seq<Call>)
    ensures a + (b + c) == (a + b) + c && a + [] == a && [] + c == c
  {
  }

  /** What a step adds to the statements issued is what it adds to the queue. */
  lemma StepIssues(actions: seq<Action>)
    requires actions != []
    requires var before, a := actions[..|actions| - 1], actions[|actions| - 1];
             Inv(Run(before)) && WaitsForAsked(before) && Enabled(Run(before), a) && !a.Work?
    ensures var s, s' := Run(actions[..|actions| - 1]), Run(actions);
            exists more :: s'.queue == s.queue + more && Issued(actions) == Issued(actions[..|actions| - 1]) + Statements(more)
                           && s'.db == s.db && s'.results == s.results
  {
    var before, a := actions[..|actions| - 1], actions[|actions| - 1];
    var s := Run(before);
    assert Run(actions) == Do(s, a);
    var more := StepQueues(s, a);
    if a.CallExecute? {
      ExecuteOwns(s, a.task);
    }
    NewStatements(s, a, more);
    assert Do(s, a).results == s.results;
    assert a.Acquire? && s.PcOf(a.task).WaitLockExec? ==> s.PcOf(a.task).text == Asked(before, a.task);
    hide Inv, Run, Do, Enabled, Statements, WaitsForAsked;
    Regrouped(Issued(before), [], []);
    assert Issued(actions) == Issued(before) + Statements(more);
  }

  lemma ExecuteOwns(s: State, t: Task)
    requires Inv(s)
    ensures s.PcOf(t).Body? || s.PcOf(t).Leaked? ==> s.owner == Some(t)
    ensures s.PcOf(t).Idle? ==> s.owner != Some(t)
  {
    assert Holds(s.PcOf(t)) <==> s.lock == Some(t);
  }

  lemma ExecuteIssues(s: State, t: Task, text: string, more: seq<Call>)
    requires Enabled(s, CallExecute(t, text)) && DoExecute(s, t, text).queue == s.queue + more
    requires s.PcOf(t).Body? || s.PcOf(t).Leaked? ==> s.owner == Some(t)
    requires s.PcOf(t).Idle? ==> s.owner != Some(t)
    ensures more == if s.PcOf(t).Body? then [Call(s.nextCall, s.PcOf(t).unit, Statement(text))]
                    else if s.PcOf(t).Leaked? then [Call(s.nextCall, s.nextUnit, Statement(text))]
                    else []
  {
    assert more == DoExecute(s, t, text).queue[|s.queue|..];
  }

  lemma AcquireIssues(s: State, t: Task, more: seq<Call>)
    requires Enabled(s, Acquire(t)) && DoAcquire(s, t).queue == s.queue + more
    ensures more == [Call(s.nextCall, s.nextUnit,
                          if s.PcOf(t).WaitLockExec? then Statement(s.PcOf(t).text) else Begin)]
  {
    assert more == DoAcquire(s, t).queue[|s.queue|..];
  }

  lemma OthersIssueNothing(s: State, a: Action, more: seq<Call>)
    requires Enabled(s, a) && !a.Work? && !a.CallExecute? && !a.Acquire? && Do(s, a).queue == s.queue + more
    ensures |more| <= 1 && forall call <- more :: !call.sql.Statement?
  {
    assert more == Do(s, a).queue[|s.queue|..];
  }

  lemma NewStatements(s: State, a: Action, more: seq<Call>)
    requires Enabled(s, a) && !a.Work? && Do(s, a).queue == s.queue + more
    requires a.CallExecute? && (s.PcOf(a.task).Body? || s.PcOf(a.task).Leaked?) ==> s.owner == Some(a.task)
    requires a.CallExecute? && s.PcOf(a.task).Idle? ==> s.owner != Some(a.task)
    ensures Statements(more) ==
            if a.CallExecute? && s.PcOf(a.task).Body? then [Call(s.nextCall, s.PcOf(a.task).unit, Statement(a.text))]
            else if a.CallExecute? && s.PcOf(a.task).Leaked? then [Call(s.nextCall, s.nextUnit, Statement(a.text))]
            else if a.Acquire? && s.PcOf(a.task).WaitLockExec? then [Call(s.nextCall, s.nextUnit, Statement(s.PcOf(a.task).text))]
            else []
  {
    if a.CallExecute? {
      ExecuteIssues(s, a.task, a.text, more);
    } else if a.Acquire? {
      AcquireIssues(s, a.task, more);
    } else {
      OthersIssueNothing(s, a, more);
    }
    hide Do;
    if more != [] {
      OneStatement(more[0]);
      assert more == [more[0]];
    }
  }

  /** A task waiting to execute outside a transaction waits with the text it passed. */
  ghost predicate WaitsForAsked(actions: seq<Action>) {
    forall t: Task :: Run(actions).PcOf(t).WaitLockExec? ==> Run(actions).PcOf(t).text == Asked(actions, t)
  }

  lemma {:induction false} EveryWaitIsForAsked(actions: seq<Action>)
    ensures WaitsForAsked(actions)
  {
    if actions != [] {
      var before, a := actions[..|actions| - 1], actions[|actions| - 1];
      EveryWaitIsForAsked(before);
      forall t: Task | Run(actions).PcOf(t).WaitLockExec? ensures Run(actions).PcOf(t).text == Asked(actions, t) {
        if Enabled(Run(before), a) && !(a.CallExecute? && a.task == t) {
          assert Run(actions).PcOf(t) == Run(before).PcOf(t);
        }
      }
    }
  }

  lemma QueueTraces(s: State, s': State, issued: seq<Call>, more: seq<Call>, done: seq<Call>)
    requires TracedBy(s, issued, done)
    requires s'.queue == s.queue + more && s'.db == s.db && s'.results == s.results
    ensures TracedBy(s', issued + Statements(more), done)
  {
    StatementsAppend(s.queue, more);
    hide Statements, Succeeded;
    Regrouped(done, Statements(s.queue), Statements(more));
  }

  lemma QuietStepIssues(actions: seq<Action>)
    requires actions != []
    ensures var before, a := actions[..|actions| - 1], actions[|actions| - 1];
            && Run(actions) == (if Enabled(Run(before), a) then Do(Run(before), a) else Run(before))
            && (!Enabled(Run(before), a) || a.Work? ==> Issued(actions) == Issued(before))
  {
    hide Do, Enabled;
  }

  lemma {:induction false} EveryScheduleTraces(actions: seq<Action>) returns (done: seq<Call>)
    ensures TracedBy(Run(actions), Issued(actions), done)
  {
    if actions == [] {
      done := [];
    } else {
      var before, a := actions[..|actions| - 1], actions[|actions| - 1];
      var s := Run(before);
      QuietStepIssues(actions);
      hide Inv, TracedBy, WaitsForAsked, Run, Do, Issued, Enabled;
      done := EveryScheduleTraces(before);
      EveryScheduleKeeps(before);
      EveryWaitIsForAsked(before);
      if Enabled(s, a) && a.Work? {
        assert s.queue != [] by {
          WorkNeedsCalls(s, a.ok);
        }
        done := WorkTraces(s, a.ok, Issued(before), done);
      } else if Enabled(s, a) {
        StepIssues(actions);
        var more :| Run(actions).queue == s.queue + more && Issued(actions) == Issued(before) + Statements(more)
                    && Run(actions).db == s.db && Run(actions).results == s.results;
        QueueTraces(s, Run(actions), Issued(before), more, done);
      }
    }
  }

  lemma WorkNeedsCalls(s: State, ok: bool)
    requires Enabled(s, Work(ok))
    ensures s.queue != []
  {
  }

  /**
   What the database executed is what tasks asked for, in the order of their turns, without the statements that
   failed; and what is durable of a unit is all of that which belongs to it, or nothing if it is a transaction that
   has not committed.
   */
  lemma DurableIsWhatWasAsked(actions: seq<Action>, unit: Unit)
    ensures var s := Run(actions);
            && s.db.log.executed == Succeeded(Issued(actions), s.results)
            && Of(unit, s.db.log.durable) ==
               if unit in s.transactional && unit !in s.db.log.committed then []
               else Of(unit, Succeeded(Issued(actions), s.results))
  {
    var s := Run(actions);
    var done := EveryScheduleTraces(actions);
    EveryScheduleKeeps(actions);
    DurableIsSerialAndAtomic(actions);
    var waiting := Statements(s.queue);
    StatementsAreAmong(s.queue);
    hide Statements, Run;
    SucceededAppend(done, waiting, s.results);
    SucceededNone(waiting, s.results);
    hide Inv;
  }

  // ---- Left alone, a transaction ends

  /** From a given state; what is not enabled does not happen. */
  function Play(s: State, actions: seq<Action>): State {
    if actions == [] then s
    else
      var before, a := Play(s, actions[..|actions| - 1]), actions[|actions| - 1];
      if Enabled(before, a) then Do(before, a) else before
  }

  lemma {:induction false} RunPlays(actions: seq<Action>, more: seq<Action>)
    ensures Run(actions + more) == Play(Run(actions), more)
  {
    if more == [] {
      assert actions + more == actions;
    } else {
      var n, all := |more| - 1, actions + more;
      RunPlays(actions, more[..n]);
      assert all[..|all| - 1] == actions + more[..n] && all[|all| - 1] == more[n];
    }
  }

  lemma {:induction false} PlayOn(s: State, a: seq<Action>, b: seq<Action>)
    ensures Play(s, a + b) == Play(Play(s, a), b)
  {
    if b == [] {
      assert a + b == a;
    } else {
      var n, all := |b| - 1, a + b;
      PlayOn(s, a, b[..n]);
      assert all[..|all| - 1] == a + b[..n] && all[|all| - 1] == b[n];
    }
  }

  lemma PlayOne(s: State, a: Action)
    requires Enabled(s, a)
    ensures Play(s, [a]) == Do(s, a)
  {
    assert [a][..0] == [];
  }

  /** The worker answers and the task takes the answer. */
  function Answer(t: Task): seq<Action> {
    [Work(true), Resume(t)]
  }

  /** A task awaits its only queued call. */
  predicate AwaitsOnly(s: State, t: Task) {
    Awaiting(s.PcOf(t)) && |s.queue| == 1 && s.queue[0].id == s.PcOf(t).call
  }

  lemma AnswerPlays(s: State, t: Task)
    requires AwaitsOnly(s, t)
    ensures var w := Do(s, Work(true));
            && Enabled(w, Resume(t))
            && Play(s, Answer(t)) == DoResume(w, t, RunCall(s.db, s.queue[0], true).1)
  {
    var w := Do(s, Work(true));
    assert w.PcOf(t) == s.PcOf(t);
    PlayOne(s, Work(true));
    PlayOne(w, Resume(t));
    hide Play;
    PlayOn(s, [Work(true)], [Resume(t)]);
    assert [Work(true)] + [Resume(t)] == Answer(t);
  }

  /** The lock is free, nothing is queued or open, and the task is elsewhere. */
  predicate Rests(s: State, t: Task) {
    s.lock.None? && s.owner.None? && s.queue == [] && s.db.connection.None? && s.PcOf(t).Idle?
  }

  /** Inside the block of its transaction, with nothing queued. */
  predicate Works(s: State, t: Task, unit: Unit, statements: seq<Call>) {
    && s.lock == Some(t) && s.owner == Some(t) && s.queue == [] && s.PcOf(t) == Body(unit)
    && s.db.connection == Some(Open(unit, statements))
  }

  function Entering(t: Task): seq<Action> {
    [CallTransaction(t)] + [Acquire(t)] + Answer(t)
  }

  lemma EnteringPlays(s: State, t: Task)
    requires Rests(s, t)
    ensures var u := Play(s, Entering(t));
            && Works(u, t, s.nextUnit, []) && u.db.log == s.db.log
  {
    var a := Do(s, CallTransaction(t));
    var b := Do(a, Acquire(t));
    assert b.queue == [Call(s.nextCall, s.nextUnit, Begin)] && b.PcOf(t) == AwaitBegin(s.nextUnit, s.nextCall);
    PlayOne(s, CallTransaction(t));
    PlayOne(a, Acquire(t));
    AnswerPlays(b, t);
    hide Play;
    PlayOn(s, [CallTransaction(t)], [Acquire(t)]);
    PlayOn(s, [CallTransaction(t)] + [Acquire(t)], Answer(t));
  }

  lemma ExecutingPlays(s: State, t: Task, unit: Unit, statements: seq<Call>, text: string)
    requires Works(s, t, unit, statements)
    ensures var u, call := Play(s, [CallExecute(t, text)] + Answer(t)), Call(s.nextCall, unit, Statement(text));
            Works(u, t, unit, statements + [call]) && u.db.log == s.db.log.RunsInside(call)
  {
    var a := Do(s, CallExecute(t, text));
    assert a.queue == [Call(s.nextCall, unit, Statement(text))] && a.PcOf(t) == AwaitBody(unit, s.nextCall);
    PlayOne(s, CallExecute(t, text));
    AnswerPlays(a, t);
    hide Play;
    PlayOn(s, [CallExecute(t, text)], Answer(t));
  }

  /** On its way out, with the last ROLLBACK queued and nothing open. */
  predicate Leaves(s: State, t: Task, unit: Unit) {
    && s.lock == Some(t) && s.owner == Some(t) && s.db.connection.None? && s.PcOf(t).AwaitFinal?
    && s.queue == [Call(s.PcOf(t).call, unit, Rollback)]
  }

  lemma LeavingPlays(s: State, t: Task, unit: Unit)
    requires Leaves(s, t, unit)
    ensures Rests(Play(s, Answer(t)), t) && Play(s, Answer(t)).db.log == s.db.log
  {
    AnswerPlays(s, t);
    hide Play;
  }

  lemma CommittingPlays(s: State, t: Task, unit: Unit, statements: seq<Call>)
    requires Works(s, t, unit, statements)
    ensures var u := Play(s, [BodyReturns(t)] + Answer(t));
            Leaves(u, t, unit) && u.db.log == s.db.log.Commits(Open(unit, statements))
  {
    var a := Do(s, BodyReturns(t));
    PlayOne(s, BodyReturns(t));
    assert a.queue == [Call(s.nextCall, unit, Commit)] && a.PcOf(t) == AwaitCommit(unit, s.nextCall);
    AnswerPlays(a, t);
    hide Play;
    PlayOn(s, [BodyReturns(t)], Answer(t));
  }

  lemma UndoingPlays(s: State, t: Task, unit: Unit, statements: seq<Call>)
    requires Works(s, t, unit, statements)
    ensures var u := Play(s, [BodyRaises(t)] + Answer(t));
            Leaves(u, t, unit) && u.db.log == s.db.log
  {
    var a := Do(s, BodyRaises(t));
    PlayOne(s, BodyRaises(t));
    assert a.queue == [Call(s.nextCall, unit, Rollback)] && a.PcOf(t) == AwaitUndo(unit, s.nextCall);
    AnswerPlays(a, t);
    hide Play;
    PlayOn(s, [BodyRaises(t)], Answer(t));
  }

  lemma ReturningPlays(s: State, t: Task, unit: Unit, statements: seq<Call>)
    requires Works(s, t, unit, statements)
    ensures var u := Play(s, [BodyReturns(t)] + Answer(t) + Answer(t));
            Rests(u, t) && u.db.log == s.db.log.Commits(Open(unit, statements))
  {
    CommittingPlays(s, t, unit, statements);
    LeavingPlays(Play(s, [BodyReturns(t)] + Answer(t)), t, unit);
    hide Play, Works, Leaves, Rests;
    PlayOn(s, [BodyReturns(t)] + Answer(t), Answer(t));
  }

  lemma RaisingPlays(s: State, t: Task, unit: Unit, statements: seq<Call>)
    requires Works(s, t, unit, statements)
    ensures var u := Play(s, [BodyRaises(t)] + Answer(t) + Answer(t));
            Rests(u, t) && u.db.log == s.db.log
  {
    UndoingPlays(s, t, unit, statements);
    LeavingPlays(Play(s, [BodyRaises(t)] + Answer(t)), t, unit);
    hide Play, Works, Leaves, Rests;
    PlayOn(s, [BodyRaises(t)] + Answer(t), Answer(t));
  }

  /** The statements in turn, each awaited. */
  function Executing(t: Task, texts: seq<string>): seq<Action> {
    if texts == [] then [] else Executing(t, texts[..|texts| - 1]) + ([CallExecute(t, texts[|texts| - 1])] + Answer(t))
  }

  lemma {:induction false} AllExecutingPlays(s: State, t: Task, unit: Unit, texts: seq<string>) returns (statements: seq<Call>)
    requires Works(s, t, unit, [])
    ensures Works(Play(s, Executing(t, texts)), t, unit, statements)
    ensures Play(s, Executing(t, texts)).db.log == Log(s.db.log.executed + statements, s.db.log.durable, s.db.log.committed)
    ensures |statements| == |texts| && forall i :: 0 <= i < |texts| ==> statements[i].unit == unit && statements[i].sql == Statement(texts[i])
  {
    if texts == [] {
      statements := [];
    } else {
      var n := |texts| - 1;
      statements := AllExecutingPlays(s, t, unit, texts[..n]);
      var u := Play(s, Executing(t, texts[..n]));
      ExecutingPlays(u, t, unit, statements, texts[n]);
      PlayOn(s, Executing(t, texts[..n]), [CallExecute(t, texts[n])] + Answer(t));
      statements := statements + [Call(u.nextCall, unit, Statement(texts[n]))];
      hide Play, Works;
    }
  }

  /** One transaction() from end to end, whose block executes these texts and then returns, or raises. */
  function Whole(t: Task, texts: seq<string>, good: bool): seq<Action> {
    Entering(t) + Executing(t, texts) + ([if good then BodyReturns(t) else BodyRaises(t)] + Answer(t) + Answer(t))
  }

  /**
   A transaction that nobody disturbs gives the lock back. If its block returned, it has committed, and exactly the
   texts it executed have become durable, in their order; if it raised, nothing has.
   */
  lemma UndisturbedEnds(s: State, t: Task, texts: seq<string>, good: bool)
    requires Rests(s, t)
    ensures var u := Play(s, Whole(t, texts, good));
            && Rests(u, t) && s.db.log.durable <= u.db.log.durable
            && u.db.log.committed == s.db.log.committed + (if good then {s.nextUnit} else {})
            && var added := u.db.log.durable[|s.db.log.durable|..];
               if !good then added == []
               else |added| == |texts| && forall i :: 0 <= i < |texts| ==> added[i].unit == s.nextUnit && added[i].sql == Statement(texts[i])
  {
    var a := Play(s, Entering(t));
    EnteringPlays(s, t);
    var statements := AllExecutingPlays(a, t, s.nextUnit, texts);
    var b := Play(a, Executing(t, texts));
    if good {
      ReturningPlays(b, t, s.nextUnit, statements);
    } else {
      RaisingPlays(b, t, s.nextUnit, statements);
    }
    hide Play, Works;
    var leave := [if good then BodyReturns(t) else BodyRaises(t)] + Answer(t) + Answer(t);
    PlayOn(s, Entering(t), Executing(t, texts));
    PlayOn(s, Entering(t) + Executing(t, texts), leave);
  }

  /** An execute() outside any transaction that nobody disturbs is durable at once and gives the lock back. */
  lemma UndisturbedExecutes(s: State, t: Task, text: string)
    requires Rests(s, t)
    ensures var u := Play(s, [CallExecute(t, text)] + [Acquire(t)] + Answer(t));
            && Rests(u, t) && u.db.log.committed == s.db.log.committed
            && u.db.log.durable == s.db.log.durable + [Call(s.nextCall, s.nextUnit, Statement(text))]
  {
    var a := Do(s, CallExecute(t, text));
    var b := Do(a, Acquire(t));
    assert b.queue == [Call(s.nextCall, s.nextUnit, Statement(text))] && b.PcOf(t) == AwaitAuto(s.nextUnit, s.nextCall);
    PlayOne(s, CallExecute(t, text));
    PlayOne(a, Acquire(t));
    AnswerPlays(b, t);
    hide Play;
    PlayOn(s, [CallExecute(t, text)], [Acquire(t)]);
    PlayOn(s, [CallExecute(t, text)] + [Acquire(t)], Answer(t));
  }
}
