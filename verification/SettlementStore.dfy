/** The kernel's repositories, updating their tables in place; each public method is one transaction. */
module SettlementStore {
  import opened Prelude
  import A = AgentTasks
  import opened Settlement

  class Repos {
    var db: Tables

    constructor ()
      ensures db == EMPTY
    {
      db := EMPTY;
    }

    // ---- Inside a transaction: an error leaves partial writes, which the owner rolls back

    method MoveExecution(executionId: string, expected: ExecutionStatus, target: ExecutionStatus)
      returns (r: Result<(), Refusal>)
      modifies this
      ensures match Move(old(db), executionId, expected, target)
              case Ok(t) => r == Ok(()) && db == t
              case Err(e) => r == Err(e)
    {
      if executionId !in db.executions || db.executions[executionId].status != expected {
        return Err(DomainError);
      }
      db := db.(executions := db.executions[executionId := db.executions[executionId].(status := target)]);
      r := Ok(());
    }

    method TransitionAgentTask(taskId: string, expected: A.TaskState, target: A.TaskState) returns (r: Result<(), Refusal>)
      modifies this
      ensures match TransitionTask(old(db), taskId, expected, target)
              case Ok(t) => r == Ok(()) && db == t
              case Err(e) => r == Err(e)
    {
      if target !in A.LegalTransitions(expected) {
        return Err(DomainError);
      }
      if taskId !in db.tasks || db.tasks[taskId].state != expected {
        return Err(DomainError);
      }
      db := db.(tasks := db.tasks[taskId := db.tasks[taskId].(state := target)]);
      r := Ok(());
    }

    method SettleAgentTask(executionId: string, settlement: RunSettlement) returns (r: Result<seq<Entry>, Refusal>)
      modifies this
      ensures match SettleTask(old(db), executionId, settlement)
              case Ok(w) => r == Ok(w.entries) && db == w.tables
              case Err(e) => r == Err(e)
    {
      var task := TaskFor(db, executionId);
      if task.None? || A.Terminal(db.tasks[task.value].state) {
        return Ok([]);
      }
      var k := task.value;
      var state := db.tasks[k].state;
      var answered := settlement.EndTurn? && executionId in db.outputs;
      var target := TaskTarget(state, settlement, answered);
      var events: seq<Entry> := [];
      if target.Completed? {
        if !state.Working? {
          var _ :- TransitionAgentTask(k, state, A.Working);
          state := A.Working;
          events := [Moved(db, k)];
        }
        db := db.(taskMessages := db.taskMessages[k := Conversation(db, k) + [DelegateSays(db.outputs[executionId].content)]]);
      }
      var _ :- TransitionAgentTask(k, state, target);
      assert [] + [Moved(db, k)] == [Moved(db, k)];
      r := Ok(events + [Moved(db, k)]);
    }

    method SettleAgentRun(executionId: string, v: Verdict) returns (r: Result<seq<Entry>, Refusal>)
      modifies this
      ensures match Settle(old(db), executionId, v)
              case Ok(w) => r == Ok(w.entries) && db == w.tables
              case Err(e) => r == Err(e)
    {
      if executionId !in db.runs || db.runs[executionId].state.Settled? {
        return Ok([]);
      }
      var run := db.runs[executionId];
      if v.expectedLease.Some? && v.expectedLease.value != run.leaseExpiresAt {
        return Err(DomainError);
      }
      db := db.(runs := db.runs[executionId := SettledRun(run, v)]);
      var moved :- SettleAgentTask(executionId, v.settlement);
      r := Ok(SettledEntries(run, executionId, v) + moved);
    }

    /** SELECT status FROM executions WHERE branch_id = ?, in some order. */
    method StatusesOf(branchId: string) returns (statuses: seq<ExecutionStatus>)
      ensures forall e <- db.executions :: OfBranch(db.executions, branchId, e) ==> db.executions[e].status in statuses
      ensures forall s <- statuses ::
                exists e <- db.executions :: OfBranch(db.executions, branchId, e) && db.executions[e].status == s
    {
      statuses := [];
      var rest := db.executions.Keys;
      while rest != {}
        invariant rest <= db.executions.Keys
        invariant forall e <- db.executions ::
                    e in rest || (OfBranch(db.executions, branchId, e) ==> db.executions[e].status in statuses)
        invariant forall s <- statuses ::
                    exists e <- db.executions :: OfBranch(db.executions, branchId, e) && db.executions[e].status == s
        decreases |rest|
      {
        var e :| e in rest;
        rest := rest - {e};
        if db.executions[e].branchId == branchId {
          statuses := statuses + [db.executions[e].status];
          assert OfBranch(db.executions, branchId, e);
        }
      }
    }

    method FinishManagedBranch(branchId: string, roomId: string) returns (events: seq<Entry>)
      modifies this
      ensures var w := FinishBranch(old(db), branchId, roomId);
              db == w.tables && events == w.entries
    {
      if branchId !in db.branches || !db.branches[branchId].managed || Finished(db.branches[branchId].status) {
        return [];
      }
      var statuses := StatusesOf(branchId);
      if statuses == [] {
        return [];
      }
      OutcomeOf(db.executions, branchId, statuses);
      if exists s <- statuses :: !Ended(s) {
        return [];
      }
      var status := BranchStatus.Partial;
      if forall s <- statuses :: s == statuses[0] {
        status := Shared(statuses[0]);
      }
      events := CloseManagedBranch(branchId, roomId, status);
    }

    method CloseManagedBranch(branchId: string, roomId: string, status: BranchStatus) returns (events: seq<Entry>)
      requires branchId in db.branches
      modifies this
      ensures var w := CloseBranch(old(db), branchId, roomId, status);
              db == w.tables && events == w.entries
    {
      db := db.(branches := db.branches[branchId := db.branches[branchId].(status := status)]);
      events := [Entry(roomId, BranchFinished(branchId, status))];
      var room := db.branches[branchId].roomId;
      if room in db.locks && db.locks[room].branchId == branchId {
        var lock := db.locks[room];
        db := db.(locks := db.locks - {room}, released := db.released + {lock.lockId});
        events := events + [Entry(roomId, LockReleased(lock.lockId, branchId, status))];
      }
    }

    method PostInTransaction(messageId: string, message: Message) returns (r: Result<(), Refusal>)
      modifies this
      ensures match PostMessage(old(db), messageId, message)
              case Ok(t) => r == Ok(()) && db == t
              case Err(e) => r == Err(e)
    {
      if message.human && message.roomId in db.locks {
        return Err(ValueError);
      }
      if messageId in db.messages {
        return Err(IntegrityError);
      }
      db := db.(messages := db.messages[messageId := message]);
      db := Append(db, [Entry(message.roomId, MessagePosted(messageId))]);
      r := Ok(());
    }

    method LaunchRun(branchId: string, roomId: string, l: Launch) returns (r: Result<(), Refusal>)
      modifies this
      ensures match LaunchIn(old(db), branchId, roomId, l)
              case Ok(t) => r == Ok(()) && db == t
              case Err(e) => r == Err(e)
    {
      if l.sessionId in db.sessions {
        return Err(IntegrityError);
      }
      db := db.(sessions := db.sessions[l.sessionId := Session(roomId, Active)]);
      var x := Execution(l.sessionId, l.agentId, branchId, l.taskId, ExecutionStatus.Pending);
      db :- InsertExecution(db, l.executionId, x);
      db :- InsertRun(db, roomId, l);
      r := Ok(());
    }

    // ---- Transactions

    method CompleteInTransaction(a: Answer, notes: seq<string>, expected: ExecutionStatus,
                                 message: Option<(string, Message)>, now: int) returns (r: Result<(), Refusal>)
      modifies this
      ensures match Complete(old(db), a, notes, expected, message, now)
              case Ok(t) => r == Ok(()) && db == t
              case Err(e) => r == Err(e)
    {
      if a.executionId in db.runs && db.runs[a.executionId].state.Settled? {
        return Err(DomainError);
      }
      db :- InsertOutput(db, a);
      var _ :- MoveExecution(a.executionId, expected, ExecutionStatus.Completed);
      db := MarkSession(db, a.sessionId, SessionStatus.Completed);
      var settled :- SettleAgentRun(a.executionId, Verdict(EndTurn, a.agentId, now, None));
      var finished := FinishManagedBranch(a.branchId, a.roomId);
      db := Append(db, Notes(a.roomId, notes) + settled + finished);
      if message.Some? {
        var _ :- PostInTransaction(message.value.0, message.value.1);
      }
      r := Ok(());
    }

    method TerminalizeInTransaction(x: Snapshot, status: ExecutionStatus, notes: seq<string>,
                                    settlement: Option<RunSettlement>, decidedBy: string, expectedLease: Option<int>,
                                    now: int) returns (r: Result<(), Refusal>)
      modifies this
      ensures match Terminalize(old(db), x, status, notes, settlement, decidedBy, expectedLease, now)
              case Ok(t) => r == Ok(()) && db == t
              case Err(e) => r == Err(e)
    {
      if !status.Failed? && !status.Cancelled? {
        return Err(ValueError);
      }
      var _ :- MoveExecution(x.executionId, x.status, status);
      db := MarkSession(db, x.sessionId, SessionStatus.Failed);
      if x.sessionId !in db.sessions {
        return Err(ValueError);
      }
      var room := db.sessions[x.sessionId].roomId;
      var verdict := Verdict(settlement.GetOr(DefaultSettlement(status)),
                             if decidedBy != "" then decidedBy else x.agentId, now, expectedLease);
      var settled :- SettleAgentRun(x.executionId, verdict);
      var finished := FinishManagedBranch(x.branchId, room);
      db := Append(db, Notes(room, notes) + settled + finished);
      r := Ok(());
    }

    method StartBranchInTransaction(branchId: string, roomId: string, lockId: Option<string>, launches: seq<Launch>)
      returns (r: Result<(), Refusal>)
      modifies this
      ensures match StartBranch(old(db), branchId, roomId, lockId, launches)
              case Ok(t) => r == Ok(()) && db == t
              case Err(e) => r == Err(e)
    {
      if !ValidParty(lockId.Some?, launches) || roomId in db.locks {
        return Err(DomainError);
      }
      if branchId in db.branches || (lockId.Some? && LockIdTaken(db, lockId.value)) {
        return Err(IntegrityError);
      }
      db := db.(branches := db.branches[branchId := Branch(roomId, true, BranchStatus.Running)]);
      if lockId.Some? {
        db := db.(locks := db.locks[roomId := TurnLock(lockId.value, branchId)]);
      }
      ghost var begun := db;
      for i := 0 to |launches|
        invariant LaunchAll(begun, branchId, roomId, launches[..i]) == Ok(db)
      {
        assert launches[..i + 1][..i] == launches[..i];
        var launched := LaunchRun(branchId, roomId, launches[i]);
        if launched.Err? {
          LaunchErrorIsFinal(begun, branchId, roomId, launches, i + 1);
          return Err(launched.error);
        }
      }
      assert launches[..|launches|] == launches;
      db := Append(db, OpeningEntries(branchId, roomId, lockId, launches));
      r := Ok(());
    }

    method GetOrCreateLegacy(roomId: string, newId: string) returns (r: Result<string, Refusal>)
      modifies this
      ensures match LegacyBranch(old(db), roomId, newId)
              case Ok(found) => r == Ok(found.1) && db == found.0
              case Err(e) => r == Err(e)
      ensures db.sessions == old(db.sessions)
    {
      if roomId in db.legacy {
        return Ok(db.legacy[roomId]);
      }
      if newId in db.branches {
        return Err(IntegrityError);
      }
      db := db.(branches := db.branches[newId := Branch(roomId, false, BranchStatus.Running)]);
      db := db.(legacy := db.legacy[roomId := newId]);
      r := Ok(newId);
    }

    method StartInBranch(l: Launch, enveloped: bool, b: string, status: ExecutionStatus) returns (r: Result<(), Refusal>)
      requires l.sessionId in db.sessions
      modifies this
      ensures match StartIn(old(db), l, enveloped, b, status)
              case Ok(t) => r == Ok(()) && db == t
              case Err(e) => r == Err(e)
    {
      db := MarkSession(db, l.sessionId, Active);
      db :- InsertExecution(db, l.executionId, Execution(l.sessionId, l.agentId, b, l.taskId, status));
      if enveloped {
        db :- InsertRun(db, db.sessions[l.sessionId].roomId, l);
      }
      r := Ok(());
    }

    method StartWithEventInTransaction(l: Launch, enveloped: bool, branchId: string, status: ExecutionStatus,
                                       legacyId: string, kind: string) returns (r: Result<(), Refusal>)
      modifies this
      ensures match StartWithEvent(old(db), l, enveloped, branchId, status, legacyId, kind)
              case Ok(t) => r == Ok(()) && db == t
              case Err(e) => r == Err(e)
    {
      hide StartIn, LegacyBranch, Append;
      if l.sessionId !in db.sessions {
        return Err(DomainError);
      }
      var room := db.sessions[l.sessionId].roomId;
      if room in db.locks && branchId != db.locks[room].branchId {
        return Err(DomainError);
      }
      var b := branchId;
      if branchId == "" {
        b :- GetOrCreateLegacy(room, legacyId);
      }
      var _ :- StartInBranch(l, enveloped, b, status);
      db := Append(db, [Entry(room, Note(kind))]);
      r := Ok(());
    }

    method InvokeInTransaction(roomId: string, l: Launch, legacyId: string, kind: string) returns (r: Result<(), Refusal>)
      modifies this
      ensures match Invoke(old(db), roomId, l, legacyId, kind)
              case Ok(t) => r == Ok(()) && db == t
              case Err(e) => r == Err(e)
    {
      var b :- GetOrCreateLegacy(roomId, legacyId);
      var _ :- LaunchRun(b, roomId, l);
      db := Append(db, [Entry(roomId, Note(kind))]);
      r := Ok(());
    }

    method StartTaskInTransaction(taskId: string, expected: A.TaskState, l: Launch, legacyId: string)
      returns (r: Result<(), Refusal>)
      modifies this
      ensures match StartTask(old(db), taskId, expected, l, legacyId)
              case Ok(t) => r == Ok(()) && db == t
              case Err(e) => r == Err(e)
    {
      var _ :- TransitionAgentTask(taskId, expected, A.Working);
      var room := db.tasks[taskId].roomId;
      var b :- GetOrCreateLegacy(room, legacyId);
      var _ :- LaunchRun(b, room, l.(taskId := Some(taskId)));
      db :- AttachExecution(db, taskId, l.executionId);
      db := Append(db, [Moved(db, taskId)]);
      r := Ok(());
    }

    method OpenAgentTask(taskId: string, roomId: string) returns (r: Result<(), Refusal>)
      modifies this
      ensures match OpenTask(old(db), taskId, roomId)
              case Ok(t) => r == Ok(()) && db == t
              case Err(e) => r == Err(e)
    {
      if taskId in db.tasks {
        return Err(IntegrityError);
      }
      db := db.(tasks := db.tasks[taskId := Task(roomId, None, A.Submitted)]);
      r := Ok(());
    }

    method SettleInTransaction(executionId: string, v: Verdict) returns (r: Result<(), Refusal>)
      modifies this
      ensures match SettleAlone(old(db), executionId, v)
              case Ok(t) => r == Ok(()) && db == t
              case Err(e) => r == Err(e)
    {
      var settled :- SettleAgentRun(executionId, v);
      db := Append(db, settled);
      r := Ok(());
    }

    /** The one row a WHERE run_id = ? can meet. */
    method RunWith(runId: string) returns (found: Option<string>)
      ensures found.Some? ==> found.value in db.runs && db.runs[found.value].runId == runId
      ensures found.None? ==> forall e <- db.runs :: db.runs[e].runId != runId
    {
      var rest := db.runs.Keys;
      while rest != {}
        invariant rest <= db.runs.Keys && forall e <- db.runs :: e in rest || db.runs[e].runId != runId
        decreases |rest|
      {
        var e :| e in rest;
        if db.runs[e].runId == runId {
          return Some(e);
        }
        rest := rest - {e};
      }
      found := None;
    }

    /** UPDATE agent_runs SET harness_state ... WHERE run_id = ? AND harness_state ...; whether it moved a row. */
    method AdvanceRun(runId: string, state: HarnessState, lease: int, actingUser: string, expected: Option<HarnessState>)
      returns (r: Result<bool, Refusal>)
      requires UniqueRunIds(db.runs)
      modifies this
      ensures match Advance(old(db), runId, state, lease, actingUser, expected)
              case Ok(t) => r.Ok? && db == t
              case Err(e) => r == Err(e)
      ensures db == old(db).(runs := db.runs) && db.runs.Keys == old(db).runs.Keys
      ensures forall e <- old(db).runs :: old(db).runs[e].state.Settled? ==> db.runs[e] == old(db).runs[e]
      ensures r != Ok(true) ==> db == old(db)
      ensures r == Ok(true) ==>
                exists e <- old(db).runs ::
                  && old(db).runs[e].runId == runId && !old(db).runs[e].state.Settled?
                  && (expected.Some? ==> old(db).runs[e].state == expected.value)
                  && db.runs == old(db).runs[e := old(db).runs[e].(state := state, leaseExpiresAt := lease,
                                                                   actingUser := actingUser)]
    {
      var found := RunWith(runId);
      if found.None? || !Selects(db.runs[found.value], runId, expected) {
        assert forall e <- db.runs :: !Selects(db.runs[e], runId, expected);
        NothingIsAdvanced(db.runs, runId, state, lease, actingUser, expected);
        return Ok(false);
      }
      var e := found.value;
      var run := db.runs[e];
      MovedIsAdvanced(db.runs, e, runId, state, lease, actingUser, expected);
      hide UniqueRunIds, AdvancedRuns;
      if run.state.Settled? || (state.Settled? && run.settlement.None?) {
        return Err(IntegrityError);
      }
      db := db.(runs := db.runs[e := run.(state := state, leaseExpiresAt := lease, actingUser := actingUser)]);
      r := Ok(true);
    }

    /** UPDATE agent_runs SET attempts = attempts + 1 WHERE ...; whether it charged a row. */
    method ChargeAttempt(runId: string, expected: int) returns (charged: bool)
      requires UniqueRunIds(db.runs)
      modifies this
      ensures db == SpendAttempt(old(db), runId, expected)
      ensures !charged ==> db == old(db)
      ensures charged ==>
                exists e <- old(db).runs ::
                  && old(db).runs[e].runId == runId && !old(db).runs[e].state.Settled?
                  && expected == old(db).runs[e].attempts < old(db).runs[e].maxAttempts
                  && db == old(db).(runs := old(db).runs[e := old(db).runs[e].(attempts := expected + 1)])
    {
      var found := RunWith(runId);
      if found.None? || !Chargeable(db.runs[found.value], runId, expected) {
        assert forall e <- db.runs :: !Chargeable(db.runs[e], runId, expected);
        NothingIsSpent(db.runs, runId, expected);
        return false;
      }
      var e := found.value;
      ChargedIsSpent(db.runs, e, runId, expected);
      hide UniqueRunIds, ChargedRuns;
      db := db.(runs := db.runs[e := db.runs[e].(attempts := db.runs[e].attempts + 1)]);
      charged := true;
    }

    // ---- One client step

    /** A step in its own transaction: an exception leaves the tables it began with. */
    method Transact(a: Action) returns (r: Result<(), Refusal>)
      requires UniqueRunIds(db.runs)
      modifies this
      ensures db == After(old(db), a)
      ensures match Apply(old(db), a)
              case Ok(_) => r == Ok(())
              case Err(e) => r == Err(e)
    {
      hide Complete, Terminalize, StartBranch, StartWithEvent, Invoke, StartTask, SettleAlone, PostMessage, Move,
        TransitionTask, Advance, SpendAttempt, OpenTask;
      var before := db;
      match a {
        case BranchStart(branchId, roomId, lockId, launches) => r := StartBranchInTransaction(branchId, roomId, lockId, launches);
        case EventStart(l, enveloped, branchId, status, legacyId, kind) =>
          r := StartWithEventInTransaction(l, enveloped, branchId, status, legacyId, kind);
        case Invocation(roomId, l, legacyId, kind) => r := InvokeInTransaction(roomId, l, legacyId, kind);
        case TaskOpening(taskId, roomId) => r := OpenAgentTask(taskId, roomId);
        case TaskStart(taskId, expected, l, legacyId) => r := StartTaskInTransaction(taskId, expected, l, legacyId);
        case TaskTransition(taskId, expected, target) => r := TransitionAgentTask(taskId, expected, target);
        case StatusUpdate(e, status, expected) => r := MoveExecution(e, expected, status);
        case Completion(answer, notes, expected, message, now) => r := CompleteInTransaction(answer, notes, expected, message, now);
        case Termination(x, status, notes, settlement, decided, lease, now) =>
          r := TerminalizeInTransaction(x, status, notes, settlement, decided, lease, now);
        case LoneSettlement(e, v) => r := SettleInTransaction(e, v);
        case Posting(messageId, m) => r := PostInTransaction(messageId, m);
        case LeaseAdvance(runId, state, lease, user, expected) =>
          var moved := AdvanceRun(runId, state, lease, user, expected);
          r := if moved.Ok? then Ok(()) else Err(moved.error);
        case AttemptSpend(runId, expected) =>
          var _ := ChargeAttempt(runId, expected);
          r := Ok(());
      }
      if r.Err? {
        db := before;
      }
    }
  }

  /** A run id being one run's, moving that run is all the statement does. */
  lemma MovedIsAdvanced(runs: map<string, AgentRun>, e: string, runId: string, state: HarnessState, lease: int,
                        actingUser: string, expected: Option<HarnessState>)
    requires UniqueRunIds(runs) && e in runs && Selects(runs[e], runId, expected)
    ensures AdvancedRuns(runs, runId, state, lease, actingUser, expected)
            == runs[e := runs[e].(state := state, leaseExpiresAt := lease, actingUser := actingUser)]
    ensures forall f <- runs :: Selects(runs[f], runId, expected) ==> f == e
  {
    forall f | f in runs && Selects(runs[f], runId, expected) ensures f == e {
    }
  }

  lemma NothingIsAdvanced(runs: map<string, AgentRun>, runId: string, state: HarnessState, lease: int,
                          actingUser: string, expected: Option<HarnessState>)
    requires forall e <- runs :: !Selects(runs[e], runId, expected)
    ensures AdvancedRuns(runs, runId, state, lease, actingUser, expected) == runs
  {
  }

  lemma ChargedIsSpent(runs: map<string, AgentRun>, e: string, runId: string, expected: int)
    requires UniqueRunIds(runs) && e in runs && Chargeable(runs[e], runId, expected)
    ensures ChargedRuns(runs, runId, expected) == runs[e := runs[e].(attempts := expected + 1)]
  {
    forall f | f in runs && Chargeable(runs[f], runId, expected) ensures f == e {
    }
  }

  lemma NothingIsSpent(runs: map<string, AgentRun>, runId: string, expected: int)
    requires forall e <- runs :: !Chargeable(runs[e], runId, expected)
    ensures ChargedRuns(runs, runId, expected) == runs
  {
  }

  /** The branch status for the one status all its executions share. */
  function Shared(s: ExecutionStatus): BranchStatus {
    match s
    case Completed => BranchStatus.Completed
    case Failed => BranchStatus.Failed
    case _ => BranchStatus.Cancelled
  }

  /** The status read off the list of a branch's statuses is the one the branch derives, whatever their order. */
  lemma OutcomeOf(executions: map<string, Execution>, b: string, statuses: seq<ExecutionStatus>)
    requires statuses != []
    requires forall e <- executions :: OfBranch(executions, b, e) ==> executions[e].status in statuses
    requires forall s <- statuses :: exists e <- executions :: OfBranch(executions, b, e) && executions[e].status == s
    ensures HasRuns(executions, b) && (AllEnded(executions, b) <==> forall s <- statuses :: Ended(s))
    ensures (forall s <- statuses :: Ended(s))
            ==> Outcome(executions, b) == if forall s <- statuses :: s == statuses[0] then Shared(statuses[0]) else Partial
  {
    assert statuses[0] in statuses;
    forall s: ExecutionStatus ensures AllHave(executions, b, s) <==> forall s' <- statuses :: s' == s {
    }
  }

  lemma {:induction false} LaunchErrorIsFinal(t: Tables, b: string, roomId: string, launches: seq<Launch>, n: nat)
    requires n <= |launches| && LaunchAll(t, b, roomId, launches[..n]).Err?
    ensures LaunchAll(t, b, roomId, launches) == LaunchAll(t, b, roomId, launches[..n])
    decreases |launches| - n
  {
    if n == |launches| {
      assert launches[..n] == launches;
    } else {
      assert launches[..n + 1][..n] == launches[..n];
      LaunchErrorIsFinal(t, b, roomId, launches, n + 1);
    }
  }
}
