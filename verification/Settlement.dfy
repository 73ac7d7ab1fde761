/**
 The settlement kernel (src/multiplayer/db/repositories.py and the client steps in src/multiplayer/services):
 execution status, run envelope, output, branch status, turn lock and agent task move in one transaction.
 Each operation is a function on the tables; Err is the exception that rolls its transaction back.
 */
module Settlement {
  import opened Prelude
  import A = AgentTasks

  datatype ExecutionStatus = Pending | Running | Paused | Completed | Failed | Cancelled

  datatype BranchStatus = Running | Completed | Partial | Failed | Cancelled

  datatype SessionStatus = Active | Completed | Failed

  datatype HarnessState = Starting | Streaming | AwaitingApproval | CancelRequested | Settled

  datatype RunSettlement =
    | EndTurn
    | Cancelled
    | MaxTokens
    | Failed
    | Orphaned
    | AuthorityRevoked
    | AgentRemoved
    | ApprovalRefused
    | ApprovalExpired
    | Parked

  datatype Session = Session(roomId: string, status: SessionStatus)

  datatype Execution = Execution(sessionId: string, agentId: string, branchId: string, taskId: Option<string>,
                                 status: ExecutionStatus)

  datatype AgentRun = AgentRun(runId: string, roomId: string, state: HarnessState, settlement: Option<RunSettlement>,
                               settledAt: Option<int>, leaseExpiresAt: int, actingUser: string, attempts: int,
                               maxAttempts: int)

  datatype Output = Output(outputId: string, content: string)

  datatype Branch = Branch(roomId: string, managed: bool, status: BranchStatus)

  datatype TurnLock = TurnLock(lockId: string, branchId: string)

  datatype Task = Task(roomId: string, executionId: Option<string>, state: A.TaskState)

  datatype TaskMessage = AskerSays(content: string) | DelegateSays(content: string)

  datatype Message = Message(roomId: string, human: bool)

  /** What an appended room event says. Note stands for the events a caller hands in. */
  datatype Fact =
    | Note(kind: string)
    | BranchStarted(branchId: string)
    | LockAcquired(lockId: string, branchId: string)
    | RunStarted(executionId: string)
    | RunSettled(runId: string, executionId: string, settlement: RunSettlement, decidedBy: string)
    | RunOrphaned(runId: string, executionId: string)
    | TaskMoved(taskId: string, state: A.TaskState)
    | BranchFinished(branchId: string, status: BranchStatus)
    | LockReleased(lockId: string, branchId: string, reason: BranchStatus)
    | MessagePosted(messageId: string)

  datatype Entry = Entry(roomId: string, fact: Fact)

  /**
   The tables, by primary key; runs and outputs by their UNIQUE execution_id. The two partial unique
   indexes are maps: locks holds the ACTIVE lock of a room, legacy the one unmanaged branch of a room.
   */
  datatype Tables = Tables(
    sessions: map<string, Session>,
    executions: map<string, Execution>,
    runs: map<string, AgentRun>,
    outputs: map<string, Output>,
    branches: map<string, Branch>,
    legacy: map<string, string>,
    locks: map<string, TurnLock>,
    released: set<string>,
    tasks: map<string, Task>,
    taskMessages: map<string, seq<TaskMessage>>,
    messages: map<string, Message>,
    log: seq<Entry>)

  const EMPTY := Tables(map[], map[], map[], map[], map[], map[], map[], {}, map[], map[], map[], [])

  datatype Refusal = DomainError | ValueError | IntegrityError

  /** The tables after a step inside a transaction, and the events it returns unsequenced. */
  datatype Written = Written(tables: Tables, entries: seq<Entry>)

  predicate Ended(s: ExecutionStatus) {
    s in {ExecutionStatus.Completed, ExecutionStatus.Failed, ExecutionStatus.Cancelled}
  }

  predicate Finished(s: BranchStatus) {
    !s.Running?
  }

  function Append(t: Tables, entries: seq<Entry>): Tables {
    t.(log := t.log + entries)
  }

  function Notes(roomId: string, kinds: seq<string>): seq<Entry> {
    seq(|kinds|, i requires 0 <= i < |kinds| => Entry(roomId, Note(kinds[i])))
  }

  // ---- Agent tasks

  /** transition_in_transaction */
  function TransitionTask(t: Tables, taskId: string, expected: A.TaskState, target: A.TaskState)
    : Result<Tables, Refusal>
  {
    if target !in A.LegalTransitions(expected) then Err(DomainError)
    else if taskId !in t.tasks || t.tasks[taskId].state != expected then Err(DomainError)
    else Ok(t.(tasks := t.tasks[taskId := t.tasks[taskId].(state := target)]))
  }

  /** attach_execution_in_transaction */
  function AttachExecution(t: Tables, taskId: string, executionId: string): Result<Tables, Refusal> {
    if taskId !in t.tasks || A.Terminal(t.tasks[taskId].state) then Err(DomainError)
    else Ok(t.(tasks := t.tasks[taskId := t.tasks[taskId].(executionId := Some(executionId))]))
  }

  function SayTo(t: Tables, taskId: string, message: TaskMessage): Tables {
    t.(taskMessages := t.taskMessages[taskId := Conversation(t, taskId) + [message]])
  }

  function Conversation(t: Tables, taskId: string): seq<TaskMessage> {
    if taskId in t.taskMessages then t.taskMessages[taskId] else []
  }

  /** for_execution: the task this execution still drives. */
  function TaskFor(t: Tables, executionId: string): Option<string> {
    if executionId !in t.executions then None
    else
      match t.executions[executionId].taskId
      case None => None
      case Some(k) => if k in t.tasks && t.tasks[k].executionId == Some(executionId) then Some(k) else None
  }

  /** The state a settlement sends a task to. */
  function TaskTarget(state: A.TaskState, settlement: RunSettlement, answered: bool): A.TaskState {
    if answered then A.Completed
    else if settlement.Cancelled? || settlement.AgentRemoved? then A.Canceled
    else if settlement.ApprovalRefused? && state.AuthRequired? then A.Rejected
    else A.Failed
  }

  function Moved(t: Tables, taskId: string): Entry
    requires taskId in t.tasks
  {
    Entry(t.tasks[taskId].roomId, TaskMoved(taskId, t.tasks[taskId].state))
  }

  /** settle_for_execution_in_transaction */
  function SettleTask(t: Tables, executionId: string, settlement: RunSettlement): Result<Written, Refusal> {
    var task := TaskFor(t, executionId);
    if task.None? || A.Terminal(t.tasks[task.value].state) then Ok(Written(t, []))
    else
      var k := task.value;
      var answered := settlement.EndTurn? && executionId in t.outputs;
      var target := TaskTarget(t.tasks[k].state, settlement, answered);
      if !answered then
        var t1 :- TransitionTask(t, k, t.tasks[k].state, target);
        Ok(Written(t1, [Moved(t1, k)]))
      else
        var started := !t.tasks[k].state.Working?;
        var t1 :- if started then TransitionTask(t, k, t.tasks[k].state, A.Working) else Ok(t);
        var t2 := SayTo(t1, k, DelegateSays(t.outputs[executionId].content));
        var t3 :- TransitionTask(t2, k, A.Working, A.Completed);
        Ok(Written(t3, (if started then [Moved(t1, k)] else []) + [Moved(t3, k)]))
  }

  // ---- Run envelopes

  /** Why and by whom a run is settled, when, and the lease value the decision was read from. */
  datatype Verdict = Verdict(settlement: RunSettlement, decidedBy: string, now: int, expectedLease: Option<int>)

  function SettledRun(run: AgentRun, v: Verdict): AgentRun {
    run.(state := Settled, settlement := Some(v.settlement), settledAt := Some(v.now))
  }

  function SettledEntries(run: AgentRun, executionId: string, v: Verdict): seq<Entry> {
    [Entry(run.roomId, RunSettled(run.runId, executionId, v.settlement, v.decidedBy))]
    + if v.settlement.Orphaned? then [Entry(run.roomId, RunOrphaned(run.runId, executionId))] else []
  }

  predicate RunOpen(t: Tables, executionId: string) {
    executionId in t.runs && !t.runs[executionId].state.Settled?
  }

  /** _settle_agent_run_in_transaction */
  function Settle(t: Tables, executionId: string, v: Verdict): Result<Written, Refusal> {
    if !RunOpen(t, executionId) then Ok(Written(t, []))
    else
      var run := t.runs[executionId];
      if v.expectedLease.Some? && v.expectedLease.value != run.leaseExpiresAt then Err(DomainError)
      else
        var w :- SettleTask(t.(runs := t.runs[executionId := SettledRun(run, v)]), executionId, v.settlement);
        Ok(Written(w.tables, SettledEntries(run, executionId, v) + w.entries))
  }

  /** settle_in_transaction, with its events appended in the same transaction. */
  function SettleAlone(t: Tables, executionId: string, v: Verdict): Result<Tables, Refusal> {
    var w :- Settle(t, executionId, v);
    Ok(Append(w.tables, w.entries))
  }

  /** run_id is the table's primary key. */
  ghost predicate UniqueRunIds(runs: map<string, AgentRun>) {
    forall e <- runs, f <- runs :: runs[e].runId == runs[f].runId ==> e == f
  }

  /** The rows the WHERE clause of advance selects. */
  predicate Selects(run: AgentRun, runId: string, expected: Option<HarnessState>) {
    run.runId == runId && if expected.Some? then run.state == expected.value else !run.state.Settled?
  }

  /** advance; a settled run is final by trigger, and SETTLED without a settlement fails a CHECK. */
  function Advance(t: Tables, runId: string, state: HarnessState, lease: int, actingUser: string,
                   expected: Option<HarnessState>): Result<Tables, Refusal>
  {
    if exists e <- t.runs :: Selects(t.runs[e], runId, expected)
                             && (t.runs[e].state.Settled? || (state.Settled? && t.runs[e].settlement.None?))
    then Err(IntegrityError)
    else Ok(t.(runs := AdvancedRuns(t.runs, runId, state, lease, actingUser, expected)))
  }

  function AdvancedRuns(runs: map<string, AgentRun>, runId: string, state: HarnessState, lease: int, actingUser: string,
                        expected: Option<HarnessState>): map<string, AgentRun>
  {
    map e | e in runs :: if Selects(runs[e], runId, expected)
                         then runs[e].(state := state, leaseExpiresAt := lease, actingUser := actingUser)
                         else runs[e]
  }

  predicate Chargeable(run: AgentRun, runId: string, expected: int) {
    run.runId == runId && run.attempts == expected && run.attempts < run.maxAttempts && !run.state.Settled?
  }

  /** spend_attempt */
  function SpendAttempt(t: Tables, runId: string, expected: int): Tables {
    t.(runs := ChargedRuns(t.runs, runId, expected))
  }

  function ChargedRuns(runs: map<string, AgentRun>, runId: string, expected: int): map<string, AgentRun> {
    map e | e in runs :: if Chargeable(runs[e], runId, expected) then runs[e].(attempts := runs[e].attempts + 1)
                         else runs[e]
  }

  // ---- Branches and turn locks

  predicate OfBranch(executions: map<string, Execution>, branchId: string, e: string) {
    e in executions && executions[e].branchId == branchId
  }

  predicate AllEnded(executions: map<string, Execution>, branchId: string) {
    forall e <- executions :: OfBranch(executions, branchId, e) ==> Ended(executions[e].status)
  }

  predicate AllHave(executions: map<string, Execution>, branchId: string, s: ExecutionStatus) {
    forall e <- executions :: OfBranch(executions, branchId, e) ==> executions[e].status == s
  }

  predicate HasRuns(executions: map<string, Execution>, branchId: string) {
    exists e <- executions :: OfBranch(executions, branchId, e)
  }

  /** The status a branch derives from its executions: theirs if they share one, else PARTIAL. */
  function Outcome(executions: map<string, Execution>, branchId: string): BranchStatus {
    if AllHave(executions, branchId, ExecutionStatus.Completed) then BranchStatus.Completed
    else if AllHave(executions, branchId, ExecutionStatus.Failed) then BranchStatus.Failed
    else if AllHave(executions, branchId, ExecutionStatus.Cancelled) then BranchStatus.Cancelled
    else Partial
  }

  /** The branch's ACTIVE lock. A trigger keeps every lock in its branch's room. */
  predicate HoldsTurn(t: Tables, branchId: string)
    requires branchId in t.branches
  {
    var room := t.branches[branchId].roomId;
    room in t.locks && t.locks[room].branchId == branchId
  }

  /** A managed branch that is not terminal while it has executions and they all are. */
  predicate Due(t: Tables, branchId: string) {
    && branchId in t.branches && t.branches[branchId].managed && !Finished(t.branches[branchId].status)
    && HasRuns(t.executions, branchId) && AllEnded(t.executions, branchId)
  }

  /** Write a branch's terminal status, announce it, and release the lock it holds. */
  function CloseBranch(t: Tables, branchId: string, roomId: string, outcome: BranchStatus): Written
    requires branchId in t.branches
  {
    var t1 := t.(branches := t.branches[branchId := t.branches[branchId].(status := outcome)]);
    var finished := Entry(roomId, BranchFinished(branchId, outcome));
    if !HoldsTurn(t, branchId) then Written(t1, [finished])
    else
      var room := t.branches[branchId].roomId;
      var lock := t.locks[room];
      Written(t1.(locks := t.locks - {room}, released := t.released + {lock.lockId}),
              [finished, Entry(roomId, LockReleased(lock.lockId, branchId, outcome))])
  }

  /** _finish_managed_branch_if_terminal */
  function FinishBranch(t: Tables, branchId: string, roomId: string): Written {
    if !Due(t, branchId) then Written(t, [])
    else CloseBranch(t, branchId, roomId, Outcome(t.executions, branchId))
  }

  // ---- Messages

  /** create_with_event_and_turn_guard_in_transaction */
  function PostMessage(t: Tables, messageId: string, message: Message): Result<Tables, Refusal> {
    if message.human && message.roomId in t.locks then Err(ValueError)
    else if messageId in t.messages then Err(IntegrityError)
    else
      Ok(Append(t.(messages := t.messages[messageId := message]), [Entry(message.roomId, MessagePosted(messageId))]))
  }

  // ---- Executions

  /** The conditional UPDATE every status write goes through, and _require_execution_transition. */
  function Move(t: Tables, executionId: string, expected: ExecutionStatus, target: ExecutionStatus)
    : Result<Tables, Refusal>
  {
    if executionId !in t.executions || t.executions[executionId].status != expected then Err(DomainError)
    else Ok(t.(executions := t.executions[executionId := t.executions[executionId].(status := target)]))
  }

  function MarkSession(t: Tables, sessionId: string, status: SessionStatus): Tables {
    if sessionId !in t.sessions then t
    else t.(sessions := t.sessions[sessionId := t.sessions[sessionId].(status := status)])
  }

  /** An AgentOutput as its caller built it. */
  datatype Answer = Answer(outputId: string, roomId: string, sessionId: string, executionId: string, agentId: string,
                           branchId: string, content: string)

  function InsertOutput(t: Tables, a: Answer): Result<Tables, Refusal> {
    if a.executionId !in t.executions || a.executionId in t.outputs
       || (exists e <- t.outputs :: t.outputs[e].outputId == a.outputId)
    then Err(IntegrityError)
    else Ok(t.(outputs := t.outputs[a.executionId := Output(a.outputId, a.content)]))
  }

  /** complete_execution */
  function Complete(t: Tables, a: Answer, notes: seq<string>, expected: ExecutionStatus,
                    message: Option<(string, Message)>, now: int): Result<Tables, Refusal>
  {
    if a.executionId in t.runs && t.runs[a.executionId].state.Settled? then Err(DomainError)
    else
      var t1 :- InsertOutput(t, a);
      var t2 :- Move(t1, a.executionId, expected, ExecutionStatus.Completed);
      var t3 := MarkSession(t2, a.sessionId, SessionStatus.Completed);
      var settled :- Settle(t3, a.executionId, Verdict(EndTurn, a.agentId, now, None));
      var finished := FinishBranch(settled.tables, a.branchId, a.roomId);
      var t4 := Append(finished.tables, Notes(a.roomId, notes) + settled.entries + finished.entries);
      match message
      case None => Ok(t4)
      case Some((messageId, m)) => PostMessage(t4, messageId, m)
  }

  /** An execution as its caller read it. */
  datatype Snapshot = Snapshot(executionId: string, sessionId: string, agentId: string, branchId: string,
                               status: ExecutionStatus)

  function DefaultSettlement(status: ExecutionStatus): RunSettlement {
    if status.Cancelled? then RunSettlement.Cancelled else RunSettlement.Failed
  }

  /** terminalize_without_output_in_transaction */
  function Terminalize(t: Tables, x: Snapshot, status: ExecutionStatus, notes: seq<string>,
                       settlement: Option<RunSettlement>, decidedBy: string, expectedLease: Option<int>, now: int)
    : Result<Tables, Refusal>
  {
    if !status.Failed? && !status.Cancelled? then Err(ValueError)
    else
      var t1 :- Move(t, x.executionId, x.status, status);
      var t2 := MarkSession(t1, x.sessionId, SessionStatus.Failed);
      if x.sessionId !in t2.sessions then Err(ValueError)
      else
        var room := t2.sessions[x.sessionId].roomId;
        var verdict := Verdict(settlement.GetOr(DefaultSettlement(status)),
                               if decidedBy != "" then decidedBy else x.agentId, now, expectedLease);
        var settled :- Settle(t2, x.executionId, verdict);
        var finished := FinishBranch(settled.tables, x.branchId, room);
        Ok(Append(finished.tables, Notes(room, notes) + settled.entries + finished.entries))
  }

  // ---- Starting work

  /** What new_id and the caller supply for one launch; admitted is the verdict of the identity and membership triggers. */
  datatype Launch = Launch(executionId: string, sessionId: string, agentId: string, taskId: Option<string>,
                           runId: string, lease: int, actingUser: string, attempts: int, maxAttempts: int, admitted: bool)

  function OpenSession(t: Tables, sessionId: string, roomId: string): Result<Tables, Refusal> {
    if sessionId in t.sessions then Err(IntegrityError)
    else Ok(t.(sessions := t.sessions[sessionId := Session(roomId, Active)]))
  }

  /** INSERT INTO executions, under its foreign keys and triggers. */
  function InsertExecution(t: Tables, executionId: string, x: Execution): Result<Tables, Refusal> {
    if executionId in t.executions || x.sessionId !in t.sessions || x.branchId !in t.branches
       || t.branches[x.branchId].roomId != t.sessions[x.sessionId].roomId
    then Err(IntegrityError)
    else Ok(t.(executions := t.executions[executionId := x]))
  }

  /** INSERT INTO agent_runs, under its keys, checks and launch triggers. */
  function InsertRun(t: Tables, roomId: string, l: Launch): Result<Tables, Refusal> {
    if !l.admitted || l.executionId !in t.executions || l.executionId in t.runs
       || (exists e <- t.runs :: t.runs[e].runId == l.runId) || l.attempts < 1 || l.maxAttempts < 1
    then Err(IntegrityError)
    else
      Ok(t.(runs := t.runs[l.executionId := AgentRun(l.runId, roomId, Starting, None, None, l.lease, l.actingUser,
                                                     l.attempts, l.maxAttempts)]))
  }

  /** get_or_create_legacy: the room's one unmanaged branch, created under newId if there is none. */
  function LegacyBranch(t: Tables, roomId: string, newId: string): Result<(Tables, string), Refusal> {
    if roomId in t.legacy then Ok((t, t.legacy[roomId]))
    else if newId in t.branches then Err(IntegrityError)
    else
      Ok((t.(branches := t.branches[newId := Branch(roomId, false, BranchStatus.Running)],
             legacy := t.legacy[roomId := newId]), newId))
  }

  /** A session, an execution in this branch and its run envelope. */
  function LaunchIn(t: Tables, branchId: string, roomId: string, l: Launch): Result<Tables, Refusal> {
    var t1 :- OpenSession(t, l.sessionId, roomId);
    var t2 :- InsertExecution(t1, l.executionId,
                              Execution(l.sessionId, l.agentId, branchId, l.taskId, ExecutionStatus.Pending));
    InsertRun(t2, roomId, l)
  }

  function LaunchAll(t: Tables, branchId: string, roomId: string, launches: seq<Launch>): Result<Tables, Refusal> {
    if launches == [] then Ok(t)
    else
      var t1 :- LaunchAll(t, branchId, roomId, launches[..|launches| - 1]);
      LaunchIn(t1, branchId, roomId, launches[|launches| - 1])
  }

  /** start_branch admits one agent when it takes the turn, else two or three, all different. */
  predicate ValidParty(locked: bool, launches: seq<Launch>) {
    && (if locked then |launches| == 1 else 2 <= |launches| <= 3)
    && (forall i, j :: 0 <= i < j < |launches| ==> launches[i].agentId != launches[j].agentId)
    && (forall i :: 0 <= i < |launches| ==> launches[i].taskId.None?)
  }

  predicate LockIdTaken(t: Tables, lockId: string) {
    lockId in t.released || exists r <- t.locks :: t.locks[r].lockId == lockId
  }

  function StartedEntries(roomId: string, launches: seq<Launch>): seq<Entry> {
    seq(|launches|, i requires 0 <= i < |launches| => Entry(roomId, RunStarted(launches[i].executionId)))
  }

  /** The tables start_branch launches in: the branch is there, and perhaps its lock. */
  function Opened(t: Tables, b: string, roomId: string, lockId: Option<string>): Tables {
    var t1 := t.(branches := t.branches[b := Branch(roomId, true, BranchStatus.Running)]);
    if lockId.None? then t1 else t1.(locks := t1.locks[roomId := TurnLock(lockId.value, b)])
  }

  function OpeningEntries(b: string, roomId: string, lockId: Option<string>, launches: seq<Launch>): seq<Entry> {
    [Entry(roomId, BranchStarted(b))]
    + (if lockId.None? then [] else [Entry(roomId, LockAcquired(lockId.value, b))])
    + StartedEntries(roomId, launches)
  }

  /** start_branch (src/multiplayer/services/branches.py): lockId is given when the branch takes the room's turn. */
  function StartBranch(t: Tables, b: string, roomId: string, lockId: Option<string>, launches: seq<Launch>)
    : Result<Tables, Refusal>
  {
    if !ValidParty(lockId.Some?, launches) || roomId in t.locks then Err(DomainError)
    else if b in t.branches || (lockId.Some? && LockIdTaken(t, lockId.value)) then Err(IntegrityError)
    else
      var launched :- LaunchAll(Opened(t, b, roomId, lockId), b, roomId, launches);
      Ok(Append(launched, OpeningEntries(b, roomId, lockId, launches)))
  }

  /** Activate the session, insert the execution and, if there is one, its envelope. */
  function StartIn(t: Tables, l: Launch, enveloped: bool, b: string, status: ExecutionStatus): Result<Tables, Refusal>
    requires l.sessionId in t.sessions
  {
    var t2 := MarkSession(t, l.sessionId, Active);
    var t3 :- InsertExecution(t2, l.executionId, Execution(l.sessionId, l.agentId, b, l.taskId, status));
    if enveloped then InsertRun(t3, t.sessions[l.sessionId].roomId, l) else Ok(t3)
  }

  /** start_with_event; an empty branchId asks for the room's legacy branch. */
  function StartWithEvent(t: Tables, l: Launch, enveloped: bool, branchId: string, status: ExecutionStatus,
                          legacyId: string, kind: string): Result<Tables, Refusal>
  {
    if l.sessionId !in t.sessions then Err(DomainError)
    else
      var room := t.sessions[l.sessionId].roomId;
      if room in t.locks && branchId != t.locks[room].branchId then Err(DomainError)
      else
        var (t1, b) :- if branchId == "" then LegacyBranch(t, room, legacyId) else Ok((t, branchId));
        var started :- StartIn(t1, l, enveloped, b, status);
        Ok(Append(started, [Entry(room, Note(kind))]))
  }

  /** A mention or a resumed run: a session, an execution in the legacy branch, its run and one event. */
  function Invoke(t: Tables, roomId: string, l: Launch, legacyId: string, kind: string): Result<Tables, Refusal> {
    var (t1, branch) :- LegacyBranch(t, roomId, legacyId);
    var t2 :- LaunchIn(t1, branch, roomId, l);
    Ok(Append(t2, [Entry(roomId, Note(kind))]))
  }

  function OpenTask(t: Tables, taskId: string, roomId: string): Result<Tables, Refusal> {
    if taskId in t.tasks then Err(IntegrityError)
    else Ok(t.(tasks := t.tasks[taskId := Task(roomId, None, A.Submitted)]))
  }

  /** start_agent_task (src/multiplayer/services/agent_tasks.py): move, launch and attach, all or nothing. */
  function StartTask(t: Tables, taskId: string, expected: A.TaskState, l: Launch, legacyId: string)
    : Result<Tables, Refusal>
  {
    var t1 :- TransitionTask(t, taskId, expected, A.Working);
    var room := t1.tasks[taskId].roomId;
    var (t2, branch) :- LegacyBranch(t1, room, legacyId);
    var t3 :- LaunchIn(t2, branch, room, l.(taskId := Some(taskId)));
    var t4 :- AttachExecution(t3, taskId, l.executionId);
    Ok(Append(t4, [Moved(t4, taskId)]))
  }

  // ---- Runs of the kernel

  datatype Action =
    | BranchStart(branchId: string, roomId: string, lockId: Option<string>, launches: seq<Launch>)
    | EventStart(launch: Launch, enveloped: bool, branchId: string, status: ExecutionStatus, legacyId: string, kind: string)
    | Invocation(roomId: string, launch: Launch, legacyId: string, kind: string)
    | TaskOpening(taskId: string, roomId: string)
    | TaskStart(taskId: string, expectedState: A.TaskState, launch: Launch, legacyId: string)
    | TaskTransition(taskId: string, expectedState: A.TaskState, target: A.TaskState)
    | StatusUpdate(executionId: string, status: ExecutionStatus, expected: ExecutionStatus)
    | Completion(answer: Answer, notes: seq<string>, expected: ExecutionStatus, message: Option<(string, Message)>, now: int)
    | Termination(snapshot: Snapshot, status: ExecutionStatus, notes: seq<string>, settlement: Option<RunSettlement>,
                  decidedBy: string, expectedLease: Option<int>, now: int)
    | LoneSettlement(executionId: string, verdict: Verdict)
    | LeaseAdvance(runId: string, state: HarnessState, lease: int, actingUser: string, expectedHarness: Option<HarnessState>)
    | AttemptSpend(runId: string, attempts: int)
    | Posting(messageId: string, posted: Message)

  function Apply(t: Tables, a: Action): Result<Tables, Refusal> {
    match a
    case BranchStart(branchId, roomId, lockId, launches) => StartBranch(t, branchId, roomId, lockId, launches)
    case EventStart(l, enveloped, branchId, status, legacyId, kind) =>
      StartWithEvent(t, l, enveloped, branchId, status, legacyId, kind)
    case Invocation(roomId, l, legacyId, kind) => Invoke(t, roomId, l, legacyId, kind)
    case TaskOpening(taskId, roomId) => OpenTask(t, taskId, roomId)
    case TaskStart(taskId, expected, l, legacyId) => StartTask(t, taskId, expected, l, legacyId)
    case TaskTransition(taskId, expected, target) => TransitionTask(t, taskId, expected, target)
    case StatusUpdate(e, status, expected) => Move(t, e, expected, status)
    case Completion(answer, notes, expected, message, now) => Complete(t, answer, notes, expected, message, now)
    case Termination(x, status, notes, settlement, decided, lease, now) =>
      Terminalize(t, x, status, notes, settlement, decided, lease, now)
    case LoneSettlement(e, v) => SettleAlone(t, e, v)
    case LeaseAdvance(runId, state, lease, user, expected) => Advance(t, runId, state, lease, user, expected)
    case AttemptSpend(runId, expected) => Ok(SpendAttempt(t, runId, expected))
    case Posting(messageId, m) => PostMessage(t, messageId, m)
  }

  /** An exception rolls its transaction back. */
  function After(t: Tables, a: Action): Tables {
    match Apply(t, a)
    case Ok(next) => next
    case Err(_) => t
  }

  function Run(actions: seq<Action>): Tables {
    if actions == [] then EMPTY else After(Run(actions[..|actions| - 1]), actions[|actions| - 1])
  }

  /**
   What the services keep to: statuses written through the generic updates and read before a terminal
   write are not terminal, a branch or session named beside an execution is that execution's own, and
   no execution is started into a managed branch.
   */
  predicate Permitted(t: Tables, a: Action) {
    match a
    case EventStart(_, _, branchId, status, _, _) =>
      !Ended(status) && (branchId in t.branches ==> !t.branches[branchId].managed)
    case StatusUpdate(_, status, expected) => !Ended(status) && !Ended(expected)
    case Completion(answer, _, expected, _, _) => !Ended(expected) && OwnBranch(t, answer.executionId, answer.branchId)
    case Termination(x, _, _, _, _, _, _) => !Ended(x.status) && OwnBranch(t, x.executionId, x.branchId)
    case _ => true
  }

  predicate OwnBranch(t: Tables, executionId: string, branchId: string) {
    executionId in t.executions ==> t.executions[executionId].branchId == branchId
  }
}
