/** What each step of the settlement kernel writes and logs, column by column and entry by entry. */
module SettlementEffects {
  import opened Prelude
  import A = AgentTasks
  import opened Settlement
  import opened SettlementInvariant
  import opened SettlementSteps
  import T = SettlementTheorems

  // ---- Settling a run and its task

  predicate StillRuns(t: Tables, e: string) {
    e in t.runs && t.runs[e].state != HarnessState.Settled
  }

  /** The run of e keeps its columns but for SETTLED, why and when; every other run is as it was. */
  ghost predicate RunsAfter(t: Tables, u: Tables, e: string, settlement: RunSettlement, now: int) {
    u.runs ==
    if StillRuns(t, e) then
      var r := t.runs[e];
      t.runs[e := AgentRun(r.runId, r.roomId, HarnessState.Settled, Some(settlement), Some(now), r.leaseExpiresAt,
                           r.actingUser, r.attempts, r.maxAttempts)]
    else t.runs
  }

  /** Its event gives the reason and who decided; an orphan has a second one. */
  function RunFacts(t: Tables, e: string, settlement: RunSettlement, decidedBy: string): seq<Entry> {
    if !StillRuns(t, e) then []
    else
      var r := t.runs[e];
      [Entry(r.roomId, RunSettled(r.runId, e, settlement, decidedBy))]
      + if settlement == Orphaned then [Entry(r.roomId, RunOrphaned(r.runId, e))] else []
  }

  /** The execution is the task's current one, its run goes on and the task has not ended. */
  predicate Drives(t: Tables, e: string, k: string) {
    && StillRuns(t, e) && e in t.executions && t.executions[e].taskId == Some(k)
    && k in t.tasks && t.tasks[k].executionId == Some(e)
    && t.tasks[k].state in {A.Submitted, A.Working, A.InputRequired, A.AuthRequired}
  }

  /** The states a task takes when the turn of its execution ends: an answer is given while it works. */
  function LastStates(state: A.TaskState, settlement: RunSettlement, answer: Option<string>): seq<A.TaskState> {
    if answer.Some? then if state == A.Working then [A.Completed] else [A.Working, A.Completed]
    else if settlement == RunSettlement.Cancelled || settlement == AgentRemoved then [A.Canceled]
    else if settlement == ApprovalRefused && state == A.AuthRequired then [A.Rejected]
    else [A.Failed]
  }

  function Said(t: Tables, k: string): seq<TaskMessage> {
    if k in t.taskMessages then t.taskMessages[k] else []
  }

  /** The driven task has taken its last state, and an answer is its delegate's last word; the other tasks are as they were. */
  ghost predicate TaskAfter(t: Tables, u: Tables, e: string, settlement: RunSettlement, answer: Option<string>, k: string) {
    if Drives(t, e, k) then
      var states := LastStates(t.tasks[k].state, settlement, answer);
      && k in u.tasks && u.tasks[k] == Task(t.tasks[k].roomId, Some(e), states[|states| - 1])
      && Said(u, k) == Said(t, k) + if answer.Some? then [DelegateSays(answer.value)] else []
    else (k in u.tasks <==> k in t.tasks) && (k in t.tasks ==> u.tasks[k] == t.tasks[k]) && Said(u, k) == Said(t, k)
  }

  ghost predicate TasksAfter(t: Tables, u: Tables, e: string, settlement: RunSettlement, answer: Option<string>) {
    forall k: string :: TaskAfter(t, u, e, settlement, answer, k)
  }

  function Moves(roomId: string, k: string, states: seq<A.TaskState>): seq<Entry> {
    seq(|states|, i requires 0 <= i < |states| => Entry(roomId, TaskMoved(k, states[i])))
  }

  /** One event for each state the driven task took. */
  function TaskFacts(t: Tables, e: string, settlement: RunSettlement, answer: Option<string>): seq<Entry> {
    if e in t.executions && t.executions[e].taskId.Some? && Drives(t, e, t.executions[e].taskId.value) then
      var k := t.executions[e].taskId.value;
      Moves(t.tasks[k].roomId, k, LastStates(t.tasks[k].state, settlement, answer))
    else []
  }

  /** Only a turn that ended normally has an answer: the output of its execution. */
  function AnswerOf(outputs: map<string, Output>, e: string, settlement: RunSettlement): Option<string> {
    if settlement == EndTurn && e in outputs then Some(outputs[e].content) else None
  }

  ghost predicate Settles(t: Tables, u: Tables, e: string, settlement: RunSettlement, now: int, answer: Option<string>) {
    RunsAfter(t, u, e, settlement, now) && TasksAfter(t, u, e, settlement, answer)
  }

  function SettlingFacts(t: Tables, e: string, settlement: RunSettlement, decidedBy: string, answer: Option<string>)
    : seq<Entry>
  {
    RunFacts(t, e, settlement, decidedBy) + TaskFacts(t, e, settlement, answer)
  }

  lemma TerminalIff(state: A.TaskState)
    ensures A.Terminal(state) <==> state !in {A.Submitted, A.Working, A.InputRequired, A.AuthRequired}
  {
    var ends := A.TERMINAL_STATES;
    assert A.Completed in ends && A.Failed in ends && A.Canceled in ends && A.Rejected in ends;
    assert A.Submitted !in ends && A.Working !in ends && A.InputRequired !in ends && A.AuthRequired !in ends;
    match state
    case Submitted => case Working => case InputRequired => case AuthRequired =>
    case Completed => case Failed => case Canceled => case Rejected =>
  }

  lemma DrivenIsUnsettled(t: Tables, e: string)
    ensures RunOpen(t, e) <==> StillRuns(t, e)
    ensures RunOpen(t, e) && Unsettled(t, e) ==> Drives(t, e, TaskFor(t, e).value)
    ensures forall k: string :: Drives(t, e, k) ==> Unsettled(t, e) && TaskFor(t, e) == Some(k)
  {
    forall state: A.TaskState
      ensures A.Terminal(state) <==> state !in {A.Submitted, A.Working, A.InputRequired, A.AuthRequired}
    {
      TerminalIff(state);
    }
  }

  /** A task that moves to this state and hears this. */
  lemma TaskWrites(t: Tables, u: Tables, e: string, settlement: RunSettlement, answer: Option<string>, k: string)
    requires Drives(t, e, k)
    requires var states := LastStates(t.tasks[k].state, settlement, answer);
             u.tasks == t.tasks[k := t.tasks[k].(state := states[|states| - 1])]
    requires u.taskMessages == if answer.Some? then t.taskMessages[k := Said(t, k) + [DelegateSays(answer.value)]]
                               else t.taskMessages
    ensures TasksAfter(t, u, e, settlement, answer)
  {
    forall other: string ensures TaskAfter(t, u, e, settlement, answer, other) {
    }
  }

  lemma NoTaskWrites(t: Tables, u: Tables, e: string, settlement: RunSettlement, answer: Option<string>)
    requires u.tasks == t.tasks && u.taskMessages == t.taskMessages && forall k: string :: !Drives(t, e, k)
    ensures TasksAfter(t, u, e, settlement, answer) && TaskFacts(t, e, settlement, answer) == []
  {
  }

  lemma AnsweredTask(t: Tables, t1: Tables, e: string, k: string)
    requires t1 == t.(runs := t1.runs) && Unsettled(t1, e) && TaskFor(t1, e) == Some(k) && e in t.outputs
    ensures SettleTask(t1, e, EndTurn).Ok?
    ensures var w, state := SettleTask(t1, e, EndTurn).value, t.tasks[k].state;
            && w.tables.runs == t1.runs && w.tables.tasks == t.tasks[k := t.tasks[k].(state := A.Completed)]
            && w.tables.taskMessages == t.taskMessages[k := Said(t, k) + [DelegateSays(t.outputs[e].content)]]
            && w.entries == Moves(t.tasks[k].roomId, k, if state == A.Working then [A.Completed] else [A.Working, A.Completed])
  {
    SettleAnswered(t1, e);
    hide SettleTask, Unsettled, TaskFor;
  }

  lemma UnansweredTask(t: Tables, t1: Tables, e: string, settlement: RunSettlement, k: string)
    requires t1 == t.(runs := t1.runs) && Unsettled(t1, e) && TaskFor(t1, e) == Some(k)
    requires !(settlement.EndTurn? && e in t.outputs) && SettleTask(t1, e, settlement).Ok?
    ensures var w, states := SettleTask(t1, e, settlement).value, LastStates(t.tasks[k].state, settlement, None);
            && w.tables.runs == t1.runs && w.tables.tasks == t.tasks[k := t.tasks[k].(state := states[|states| - 1])]
            && w.tables.taskMessages == t.taskMessages && w.entries == Moves(t.tasks[k].roomId, k, states)
  {
    SettleUnanswered(t1, e, settlement);
    hide SettleTask, Unsettled, TaskFor;
  }

  /** What SettleTask does to the driven task. */
  lemma DrivenTaskEnds(t: Tables, t1: Tables, e: string, v: Verdict, k: string)
    requires Drives(t, e, k) && t1 == t.(runs := t1.runs) && SettleTask(t1, e, v.settlement).Ok?
    ensures var w := SettleTask(t1, e, v.settlement).value;
            var answer := AnswerOf(t.outputs, e, v.settlement);
            && w.tables.runs == t1.runs
            && TasksAfter(t, w.tables, e, v.settlement, answer) && w.entries == TaskFacts(t, e, v.settlement, answer)
  {
    var w, answer := SettleTask(t1, e, v.settlement).value, AnswerOf(t.outputs, e, v.settlement);
    DrivenIsUnsettled(t, e);
    assert TaskFor(t1, e) == TaskFor(t, e) && Unsettled(t1, e);
    if answer.Some? {
      AnsweredTask(t, t1, e, k);
    } else {
      UnansweredTask(t, t1, e, v.settlement, k);
    }
    hide SettleTask, Unsettled, TaskFor;
    TaskWrites(t, w.tables, e, v.settlement, answer, k);
  }

  lemma SettleWrites(t: Tables, e: string, v: Verdict)
    requires Settle(t, e, v).Ok?
    ensures var w, answer := Settle(t, e, v).value, AnswerOf(t.outputs, e, v.settlement);
            && Settles(t, w.tables, e, v.settlement, v.now, answer)
            && w.entries == SettlingFacts(t, e, v.settlement, v.decidedBy, answer)
  {
    var w, answer := Settle(t, e, v).value, AnswerOf(t.outputs, e, v.settlement);
    DrivenIsUnsettled(t, e);
    SettleMeans(t, e, v);
    if Drives(t, e, TaskFor(t, e).GetOr("")) {
      var k := TaskFor(t, e).value;
      DrivenTaskEnds(t, t.(runs := t.runs[e := SettledRun(t.runs[e], v)]), e, v, k);
      hide SettleTask, TasksAfter, TaskFacts, AnswerOf, Drives;
    } else {
      NoTaskWrites(t, w.tables, e, v.settlement, answer);
      hide TasksAfter, TaskFacts, AnswerOf;
    }
  }

  // ---- Closing a branch

  ghost predicate IsOver(s: ExecutionStatus) {
    s == ExecutionStatus.Completed || s == ExecutionStatus.Failed || s == ExecutionStatus.Cancelled
  }

  /** A managed RUNNING branch that has executions, all of which are over. */
  ghost predicate Closes(t: Tables, executions: map<string, Execution>, b: string) {
    && b in t.branches && t.branches[b].managed && t.branches[b].status == BranchStatus.Running
    && (exists e <- executions :: executions[e].branchId == b)
    && forall e <- executions :: executions[e].branchId == b ==> IsOver(executions[e].status)
  }

  /** The status the executions share, and PARTIAL if two differ. */
  ghost predicate Derives(executions: map<string, Execution>, b: string, s: BranchStatus) {
    match s
    case Running => false
    case Completed => forall e <- executions :: executions[e].branchId == b ==> executions[e].status == ExecutionStatus.Completed
    case Failed => forall e <- executions :: executions[e].branchId == b ==> executions[e].status == ExecutionStatus.Failed
    case Cancelled => forall e <- executions :: executions[e].branchId == b ==> executions[e].status == ExecutionStatus.Cancelled
    case Partial =>
      exists e <- executions, f <- executions ::
        executions[e].branchId == b && executions[f].branchId == b && executions[e].status != executions[f].status
  }

  predicate HasTurn(t: Tables, b: string)
    requires b in t.branches
  {
    t.branches[b].roomId in t.locks && t.locks[t.branches[b].roomId].branchId == b
  }

  /** A branch that closes gets its derived status and loses the room's turn; everything else is as it was. */
  ghost predicate BranchesAfter(t: Tables, u: Tables, b: string) {
    if !Closes(t, u.executions, b) then u.branches == t.branches && u.locks == t.locks && u.released == t.released
    else
      && b in u.branches && Derives(u.executions, b, u.branches[b].status)
      && u.branches == t.branches[b := Branch(t.branches[b].roomId, true, u.branches[b].status)]
      && if !HasTurn(t, b) then u.locks == t.locks && u.released == t.released
         else
           var room := t.branches[b].roomId;
           u.locks == t.locks - {room} && u.released == t.released + {t.locks[room].lockId}
  }

  /** The closing's event, and the release's if the branch had the turn. */
  ghost function ClosingFacts(t: Tables, u: Tables, b: string, roomId: string): seq<Entry> {
    if !Closes(t, u.executions, b) || b !in u.branches then []
    else
      var status := u.branches[b].status;
      [Entry(roomId, BranchFinished(b, status))]
      + if HasTurn(t, b) then [Entry(roomId, LockReleased(t.locks[t.branches[b].roomId].lockId, b, status))] else []
  }

  lemma OutcomeDerives(executions: map<string, Execution>, b: string)
    requires HasRuns(executions, b) && AllEnded(executions, b)
    ensures Derives(executions, b, Outcome(executions, b))
  {
    if Outcome(executions, b) == Partial {
      var e :| e in executions && OfBranch(executions, b, e);
      assert !AllHave(executions, b, executions[e].status);
      var f :| f in executions && OfBranch(executions, b, f) && executions[f].status != executions[e].status;
      assert executions[e].branchId == b && executions[f].branchId == b;
    }
  }

  lemma DueCloses(t: Tables, b: string)
    ensures Due(t, b) <==> Closes(t, t.executions, b)
    ensures Due(t, b) ==> Derives(t.executions, b, Outcome(t.executions, b)) && b in t.branches && t.branches[b].managed
  {
    forall e | e in t.executions ensures OfBranch(t.executions, b, e) <==> t.executions[e].branchId == b {
    }
    assert HasRuns(t.executions, b) <==> exists e <- t.executions :: t.executions[e].branchId == b;
    if Due(t, b) {
      OutcomeDerives(t.executions, b);
    }
  }

  lemma FinishWrites(t: Tables, b: string, roomId: string)
    ensures var f := FinishBranch(t, b, roomId);
            BranchesAfter(t, f.tables, b) && f.entries == ClosingFacts(t, f.tables, b, roomId)
  {
    hide Closes, Due, Derives, Outcome;
    DueCloses(t, b);
    FinishMeans(t, b, roomId);
  }

  // ---- Ending an execution

  /** The log goes on with the caller's events, one by one, and then with these. */
  ghost predicate LogAfter(log: seq<Entry>, after: seq<Entry>, roomId: string, notes: seq<string>, rest: seq<Entry>) {
    && |after| == |log| + |notes| + |rest| && after[..|log|] == log
    && (forall i :: 0 <= i < |notes| ==> after[|log| + i] == Entry(roomId, Note(notes[i])))
    && after[|log| + |notes|..] == rest
  }

  /** What an ending writes beside the execution's own row, and all that it logs. */
  ghost predicate Concludes(t: Tables, u: Tables, e: string, settlement: RunSettlement, decidedBy: string, now: int,
                            answer: Option<string>, b: string, roomId: string, notes: seq<string>, posted: seq<Entry>)
  {
    && Settles(t, u, e, settlement, now, answer) && BranchesAfter(t, u, b) && u.legacy == t.legacy
    && LogAfter(t.log, u.log, roomId, notes,
                SettlingFacts(t, e, settlement, decidedBy, answer) + ClosingFacts(t, u, b, roomId) + posted)
  }

  ghost predicate SameTaskId(t: Tables, s: Tables, e: string) {
    && (e in s.executions <==> e in t.executions)
    && (e in t.executions ==> s.executions[e].taskId == t.executions[e].taskId)
  }

  lemma SameDrives(t: Tables, s: Tables, e: string, k: string)
    requires s.runs == t.runs && s.tasks == t.tasks && SameTaskId(t, s, e)
    ensures Drives(s, e, k) <==> Drives(t, e, k)
  {
  }

  lemma SameTaskFacts(t: Tables, s: Tables, e: string, settlement: RunSettlement, answer: Option<string>)
    requires s.tasks == t.tasks && SameTaskId(t, s, e) && forall k: string :: Drives(s, e, k) <==> Drives(t, e, k)
    ensures TaskFacts(t, e, settlement, answer) == TaskFacts(s, e, settlement, answer)
  {
    if e in t.executions && t.executions[e].taskId.Some? {
      var k := t.executions[e].taskId.value;
      assert Drives(s, e, k) <==> Drives(t, e, k);
      hide LastStates, Moves;
    }
  }

  lemma SettlesFrom(t: Tables, s: Tables, w: Tables, u: Tables, e: string, settlement: RunSettlement, decidedBy: string,
                    now: int, answer: Option<string>)
    requires s.runs == t.runs && s.tasks == t.tasks && s.taskMessages == t.taskMessages && SameTaskId(t, s, e)
    requires u.runs == w.runs && u.tasks == w.tasks && u.taskMessages == w.taskMessages
    requires Settles(s, w, e, settlement, now, answer)
    ensures Settles(t, u, e, settlement, now, answer)
    ensures SettlingFacts(t, e, settlement, decidedBy, answer) == SettlingFacts(s, e, settlement, decidedBy, answer)
  {
    hide LastStates, Drives, Moves, SameTaskId, TaskFacts, TaskAfter;
    forall k: string ensures (Drives(s, e, k) <==> Drives(t, e, k)) && TaskAfter(t, u, e, settlement, answer, k) {
      SameDrives(t, s, e, k);
      assert TaskAfter(s, w, e, settlement, answer, k);
      TaskAfterFrom(t, s, w, u, e, settlement, answer, k);
    }
    SameTaskFacts(t, s, e, settlement, answer);
  }

  lemma TaskAfterFrom(t: Tables, s: Tables, w: Tables, u: Tables, e: string, settlement: RunSettlement,
                      answer: Option<string>, k: string)
    requires s.tasks == t.tasks && s.taskMessages == t.taskMessages && (Drives(s, e, k) <==> Drives(t, e, k))
    requires u.tasks == w.tasks && u.taskMessages == w.taskMessages && TaskAfter(s, w, e, settlement, answer, k)
    ensures TaskAfter(t, u, e, settlement, answer, k)
  {
    if Drives(t, e, k) {
      assert k in t.tasks;
    }
    hide LastStates, Drives;
  }

  lemma ClosesFrom(t: Tables, w: Tables, f: Tables, u: Tables, b: string, roomId: string)
    requires w.branches == t.branches && w.locks == t.locks && w.released == t.released
    requires u.executions == f.executions && u.branches == f.branches && u.locks == f.locks && u.released == f.released
    requires BranchesAfter(w, f, b)
    ensures BranchesAfter(t, u, b) && ClosingFacts(t, u, b, roomId) == ClosingFacts(w, f, b, roomId)
  {
    assert Closes(t, u.executions, b) <==> Closes(w, f.executions, b);
    hide Closes, Derives;
  }

  lemma LogOf(log: seq<Entry>, roomId: string, notes: seq<string>, settled: seq<Entry>, closed: seq<Entry>)
    ensures LogAfter(log, log + (Notes(roomId, notes) + settled + closed), roomId, notes, settled + closed + [])
  {
    var after := log + (Notes(roomId, notes) + settled + closed);
    assert after == log + Notes(roomId, notes) + (settled + closed);
    assert settled + closed + [] == settled + closed;
  }

  lemma EndingWrites(t: Tables, s: Tables, e: string, v: Verdict, b: string, roomId: string, notes: seq<string>)
    requires s == t.(executions := s.executions, outputs := s.outputs, sessions := s.sessions) && SameTaskId(t, s, e)
    requires Settle(s, e, v).Ok?
    ensures var w := Settle(s, e, v).value;
            var f := FinishBranch(w.tables, b, roomId);
            var u := Append(f.tables, Notes(roomId, notes) + w.entries + f.entries);
            && Concludes(t, u, e, v.settlement, v.decidedBy, v.now, AnswerOf(s.outputs, e, v.settlement), b, roomId, notes, [])
            && u.executions == s.executions && u.outputs == s.outputs && u.sessions == s.sessions && u.messages == t.messages
  {
    var w := Settle(s, e, v).value;
    var f := FinishBranch(w.tables, b, roomId);
    var u := Append(f.tables, Notes(roomId, notes) + w.entries + f.entries);
    var answer := AnswerOf(s.outputs, e, v.settlement);
    SettleWrites(s, e, v);
    SettleMeans(s, e, v);
    FinishWrites(w.tables, b, roomId);
    FinishMeans(w.tables, b, roomId);
    hide Settle, FinishBranch, BranchesAfter, Settles, ClosingFacts, SettlingFacts, LogAfter, Notes, AnswerOf, Closed, Unlocked;
    hide Closing, Due, Outcome, Unsettled;
    SettlesFrom(t, s, w.tables, u, e, v.settlement, v.decidedBy, v.now, answer);
    ClosesFrom(t, w.tables, f.tables, u, b, roomId);
    LogOf(t.log, roomId, notes, w.entries, f.entries);
  }

  function PostedFacts(message: Option<(string, Message)>): seq<Entry> {
    if message.None? then [] else [Entry(message.value.1.roomId, MessagePosted(message.value.0))]
  }

  /** The columns of an execution but for its status. */
  function WithStatus(x: Execution, status: ExecutionStatus): Execution {
    Execution(x.sessionId, x.agentId, x.branchId, x.taskId, status)
  }

  lemma LogAndPost(log: seq<Entry>, after: seq<Entry>, roomId: string, notes: seq<string>, rest: seq<Entry>, one: Entry)
    requires LogAfter(log, after, roomId, notes, rest + [])
    ensures LogAfter(log, after + [one], roomId, notes, rest + [one])
  {
    assert rest + [] == rest;
    assert (after + [one])[..|log|] == after[..|log|];
    assert (after + [one])[|log| + |notes|..] == after[|log| + |notes|..] + [one];
  }

  lemma PostedConcludes(t: Tables, done: Tables, e: string, decidedBy: string, now: int, answer: Option<string>, b: string,
                        roomId: string, notes: seq<string>, messageId: string, m: Message)
    requires Concludes(t, done, e, EndTurn, decidedBy, now, answer, b, roomId, notes, [])
    requires PostMessage(done, messageId, m).Ok?
    ensures var u := PostMessage(done, messageId, m).value;
            && Concludes(t, u, e, EndTurn, decidedBy, now, answer, b, roomId, notes, PostedFacts(Some((messageId, m))))
            && u == done.(messages := done.messages[messageId := m], log := u.log) && messageId !in done.messages
            && (m.human ==> m.roomId !in done.locks)
  {
    var u := PostMessage(done, messageId, m).value;
    hide LogAfter, SettlingFacts;
    LogAndPost(t.log, done.log, roomId, notes, SettlingFacts(t, e, EndTurn, decidedBy, answer) + ClosingFacts(t, done, b, roomId),
               Entry(m.roomId, MessagePosted(messageId)));
    ClosesFrom(t, t, done, u, b, roomId);
    hide BranchesAfter, ClosingFacts;
    forall k: string ensures TaskAfter(t, u, e, EndTurn, answer, k) {
      assert TaskAfter(t, done, e, EndTurn, answer, k);
    }
  }

  lemma AnsweredRows(t: Tables, a: Answer)
    requires a.executionId in t.executions
    ensures var e, s := a.executionId, Answered(t, a);
            && s == t.(executions := s.executions, outputs := s.outputs, sessions := s.sessions) && SameTaskId(t, s, e)
            && s.executions == t.executions[e := WithStatus(t.executions[e], ExecutionStatus.Completed)]
            && s.outputs == t.outputs[e := Output(a.outputId, a.content)]
            && s.sessions == if a.sessionId !in t.sessions then t.sessions
                             else t.sessions[a.sessionId := Session(t.sessions[a.sessionId].roomId, SessionStatus.Completed)]
  {
  }

  /** The tables before the message is posted. */
  lemma AnswerConcludes(t: Tables, a: Answer, notes: seq<string>, now: int)
    requires a.executionId in t.executions
    requires Settle(Answered(t, a), a.executionId, Verdict(EndTurn, a.agentId, now, None)).Ok?
    ensures var e, s := a.executionId, Answered(t, a);
            var w := Settle(s, e, Verdict(EndTurn, a.agentId, now, None)).value;
            var f := FinishBranch(w.tables, a.branchId, a.roomId);
            var u := Append(f.tables, Notes(a.roomId, notes) + w.entries + f.entries);
            && u.executions == t.executions[e := WithStatus(t.executions[e], ExecutionStatus.Completed)]
            && u.outputs == t.outputs[e := Output(a.outputId, a.content)]
            && u.sessions == (if a.sessionId !in t.sessions then t.sessions
                              else t.sessions[a.sessionId := Session(t.sessions[a.sessionId].roomId, SessionStatus.Completed)])
            && u.messages == t.messages
            && Concludes(t, u, e, EndTurn, a.agentId, now, Some(a.content), a.branchId, a.roomId, notes, [])
  {
    AnsweredRows(t, a);
    hide Settle, FinishBranch, Concludes, Notes, Answered;
    EndingWrites(t, Answered(t, a), a.executionId, Verdict(EndTurn, a.agentId, now, None), a.branchId, a.roomId, notes);
  }

  /**
   A completion: the execution COMPLETED from the state its caller read, its session COMPLETED, the output written, the
   run END_TURN by its agent, the task answered, the branch closed if it ends with this; and a log of exactly the
   caller's events, the settlement's, the closing's and the message.
   */
  lemma CompletionWrites(t: Tables, a: Answer, notes: seq<string>, expected: ExecutionStatus,
                         message: Option<(string, Message)>, now: int)
    requires Apply(t, Completion(a, notes, expected, message, now)).Ok?
    ensures var e, u := a.executionId, Apply(t, Completion(a, notes, expected, message, now)).value;
            && e in t.executions && t.executions[e].status == expected && e !in t.outputs && (e in t.runs ==> StillRuns(t, e))
            && u.executions == t.executions[e := WithStatus(t.executions[e], ExecutionStatus.Completed)]
            && u.outputs == t.outputs[e := Output(a.outputId, a.content)]
            && u.sessions == (if a.sessionId !in t.sessions then t.sessions
                              else t.sessions[a.sessionId := Session(t.sessions[a.sessionId].roomId, SessionStatus.Completed)])
            && (message.Some? ==> message.value.0 !in t.messages && (message.value.1.human ==> message.value.1.roomId !in u.locks))
            && u.messages == (if message.None? then t.messages else t.messages[message.value.0 := message.value.1])
            && Concludes(t, u, e, EndTurn, a.agentId, now, Some(a.content), a.branchId, a.roomId, notes, PostedFacts(message))
  {
    CompleteMeans(t, a, notes, expected, message, now);
    hide Settle, FinishBranch, Concludes, Notes, Complete, PostMessage, Answered;
    AnswerConcludes(t, a, notes, now);
    if message.Some? {
      var w := Settle(Answered(t, a), a.executionId, Verdict(EndTurn, a.agentId, now, None)).value;
      var f := FinishBranch(w.tables, a.branchId, a.roomId);
      PostedConcludes(t, Append(f.tables, Notes(a.roomId, notes) + w.entries + f.entries), a.executionId, a.agentId, now,
                      Some(a.content), a.branchId, a.roomId, notes, message.value.0, message.value.1);
    }
  }

  /**
   An ending without output: the execution FAILED or CANCELLED, its session FAILED, the run settled for the given reason,
   or for the one its status implies, by whoever decided, or by its agent, the task ended and the branch perhaps closed.
   */
  lemma TerminationWrites(t: Tables, x: Snapshot, status: ExecutionStatus, notes: seq<string>,
                          settlement: Option<RunSettlement>, decidedBy: string, lease: Option<int>, now: int)
    requires Apply(t, Termination(x, status, notes, settlement, decidedBy, lease, now)).Ok?
    ensures var e, u := x.executionId, Apply(t, Termination(x, status, notes, settlement, decidedBy, lease, now)).value;
            var why := if settlement.Some? then settlement.value
                       else if status == ExecutionStatus.Cancelled then RunSettlement.Cancelled else RunSettlement.Failed;
            && (status == ExecutionStatus.Failed || status == ExecutionStatus.Cancelled)
            && e in t.executions && t.executions[e].status == x.status && x.sessionId in t.sessions
            && u.executions == t.executions[e := WithStatus(t.executions[e], status)]
            && u.sessions == t.sessions[x.sessionId := Session(t.sessions[x.sessionId].roomId, SessionStatus.Failed)]
            && u.outputs == t.outputs && u.messages == t.messages
            && (lease.Some? && StillRuns(t, e) ==> t.runs[e].leaseExpiresAt == lease.value)
            && Concludes(t, u, e, why, if decidedBy == "" then x.agentId else decidedBy, now, AnswerOf(t.outputs, e, why),
                         x.branchId, t.sessions[x.sessionId].roomId, notes, [])
  {
    TerminalizeMeans(t, x, status, notes, settlement, decidedBy, lease, now);
    var v := Verdict(settlement.GetOr(DefaultSettlement(status)), if decidedBy != "" then decidedBy else x.agentId, now,
                     lease);
    SettledLease(Terminated(t, x, status), x.executionId, v);
    hide Settle, FinishBranch, Concludes, Notes, Terminalize;
    EndingWrites(t, Terminated(t, x, status), x.executionId, v, x.branchId, t.sessions[x.sessionId].roomId, notes);
  }

  lemma SettledLease(t: Tables, e: string, v: Verdict)
    requires Settle(t, e, v).Ok?
    ensures v.expectedLease.Some? && StillRuns(t, e) ==> t.runs[e].leaseExpiresAt == v.expectedLease.value
  {
  }

  /** A settlement on its own: the run, its task and their events, and nothing else. */
  lemma SettlementWrites(t: Tables, e: string, v: Verdict)
    requires Apply(t, LoneSettlement(e, v)).Ok?
    ensures var u, answer := Apply(t, LoneSettlement(e, v)).value, AnswerOf(t.outputs, e, v.settlement);
            && u == t.(runs := u.runs, tasks := u.tasks, taskMessages := u.taskMessages, log := u.log)
            && (v.expectedLease.Some? && StillRuns(t, e) ==> t.runs[e].leaseExpiresAt == v.expectedLease.value)
            && Settles(t, u, e, v.settlement, v.now, answer)
            && u.log == t.log + SettlingFacts(t, e, v.settlement, v.decidedBy, answer)
  {
    SettleMeans(t, e, v);
    SettleWrites(t, e, v);
    SettledLease(t, e, v);
    var w, answer := Settle(t, e, v).value, AnswerOf(t.outputs, e, v.settlement);
    hide Settle, SettlingFacts, Settles, AnswerOf;
    SettlesFrom(t, t, w.tables, Append(w.tables, w.entries), e, v.settlement, v.decidedBy, v.now, answer);
  }

  // ---- Starting executions

  /** A launch's session, execution and run, each column. */
  ghost predicate LaunchRow(u: Tables, l: Launch, b: string, roomId: string) {
    && l.sessionId in u.sessions && u.sessions[l.sessionId] == Session(roomId, Active)
    && l.executionId in u.executions
    && u.executions[l.executionId] == Execution(l.sessionId, l.agentId, b, l.taskId, ExecutionStatus.Pending)
    && l.executionId in u.runs && u.runs[l.executionId] == OpenRun(l, roomId)
  }

  function OpenRun(l: Launch, roomId: string): AgentRun {
    AgentRun(l.runId, roomId, Starting, None, None, l.lease, l.actingUser, l.attempts, l.maxAttempts)
  }

  function SessionIds(launches: seq<Launch>): set<string> {
    set i | 0 <= i < |launches| :: launches[i].sessionId
  }

  function ExecutionIds(launches: seq<Launch>): set<string> {
    set i | 0 <= i < |launches| :: launches[i].executionId
  }

  /** Nothing but new sessions, executions and runs, under these ids. */
  ghost predicate OnlyAdds(t: Tables, u: Tables, sessions: set<string>, executions: set<string>) {
    && u == t.(sessions := u.sessions, executions := u.executions, runs := u.runs)
    && Extends(t.sessions, u.sessions) && Extends(t.executions, u.executions) && Extends(t.runs, u.runs)
    && u.sessions.Keys == t.sessions.Keys + sessions && u.executions.Keys == t.executions.Keys + executions
    && u.runs.Keys == t.runs.Keys + executions
  }

  ghost predicate Launched(t: Tables, u: Tables, b: string, roomId: string, launches: seq<Launch>) {
    && OnlyAdds(t, u, SessionIds(launches), ExecutionIds(launches))
    && forall i :: 0 <= i < |launches| ==> LaunchRow(u, launches[i], b, roomId)
  }

  /** All its ids are new, its identity is admitted and its attempts are positive. */
  ghost predicate MayLaunch(t: Tables, l: Launch) {
    && l.admitted && l.attempts >= 1 && l.maxAttempts >= 1
    && l.sessionId !in t.sessions && l.executionId !in t.executions && l.executionId !in t.runs
    && forall e <- t.runs :: t.runs[e].runId != l.runId
  }

  ghost predicate Apart(l: Launch, m: Launch) {
    l.sessionId != m.sessionId && l.executionId != m.executionId && l.runId != m.runId
  }

  ghost predicate MayLaunchAll(t: Tables, launches: seq<Launch>) {
    && (forall i :: 0 <= i < |launches| ==> MayLaunch(t, launches[i]))
    && forall i, j :: 0 <= i < j < |launches| ==> Apart(launches[i], launches[j])
  }

  lemma LaunchIff(t: Tables, b: string, roomId: string, l: Launch)
    requires b in t.branches && t.branches[b].roomId == roomId
    ensures LaunchIn(t, b, roomId, l).Ok? <==> MayLaunch(t, l)
  {
    var x := Execution(l.sessionId, l.agentId, b, l.taskId, ExecutionStatus.Pending);
    var t1 := OpenSession(t, l.sessionId, roomId);
    if t1.Ok? {
      var t2 := InsertExecution(t1.value, l.executionId, x);
      assert t2.Ok? <==> l.executionId !in t.executions;
      if t2.Ok? {
        assert t2.value.runs == t.runs && l.executionId in t2.value.executions;
        hide OpenSession, InsertExecution;
      }
    }
  }

  lemma LaunchWrites(t: Tables, b: string, roomId: string, l: Launch)
    requires LaunchIn(t, b, roomId, l).Ok?
    ensures var u := LaunchIn(t, b, roomId, l).value;
            && LaunchRow(u, l, b, roomId) && OnlyAdds(t, u, {l.sessionId}, {l.executionId})
            && u.runs == t.runs[l.executionId := OpenRun(l, roomId)] && b in t.branches
  {
  }

  lemma OneMoreId(launches: seq<Launch>, n: nat)
    requires n < |launches|
    ensures SessionIds(launches[..n + 1]) == SessionIds(launches[..n]) + {launches[n].sessionId}
    ensures ExecutionIds(launches[..n + 1]) == ExecutionIds(launches[..n]) + {launches[n].executionId}
  {
    var few, more := launches[..n], launches[..n + 1];
    assert more == few + [launches[n]];
  }

  lemma OnlyAddsTwice(t: Tables, u: Tables, w: Tables, sessions: set<string>, executions: set<string>, l: Launch)
    requires OnlyAdds(t, u, sessions, executions) && OnlyAdds(u, w, {l.sessionId}, {l.executionId})
    ensures OnlyAdds(t, w, sessions + {l.sessionId}, executions + {l.executionId})
  {
  }

  lemma RowStays(u: Tables, w: Tables, l: Launch, b: string, roomId: string)
    requires LaunchRow(u, l, b, roomId)
    requires Extends(u.sessions, w.sessions) && Extends(u.executions, w.executions) && Extends(u.runs, w.runs)
    ensures LaunchRow(w, l, b, roomId)
  {
  }

  /** After some launches another works exactly if it works before them and its ids are not theirs. */
  lemma MayLaunchStill(t: Tables, u: Tables, b: string, roomId: string, launches: seq<Launch>, l: Launch)
    requires Launched(t, u, b, roomId, launches)
    ensures MayLaunch(u, l) <==> MayLaunch(t, l) && forall i :: 0 <= i < |launches| ==> Apart(launches[i], l)
  {
    if MayLaunch(t, l) && forall i :: 0 <= i < |launches| ==> Apart(launches[i], l) {
      forall e | e in u.runs ensures u.runs[e].runId != l.runId {
        if e !in t.runs {
          var i :| 0 <= i < |launches| && launches[i].executionId == e;
          assert LaunchRow(u, launches[i], b, roomId);
        }
      }
    }
    if MayLaunch(u, l) {
      forall e | e in t.runs ensures t.runs[e].runId != l.runId {
        assert u.runs[e] == t.runs[e];
      }
      forall i | 0 <= i < |launches| ensures Apart(launches[i], l) {
        assert LaunchRow(u, launches[i], b, roomId);
      }
    }
  }

  /** The launches go through exactly when each could alone and no two share an id; their rows are then all that is new. */
  lemma {:induction false} LaunchesWrite(t: Tables, b: string, roomId: string, launches: seq<Launch>)
    requires b in t.branches && t.branches[b].roomId == roomId
    ensures LaunchAll(t, b, roomId, launches).Ok? <==> MayLaunchAll(t, launches)
    ensures LaunchAll(t, b, roomId, launches).Ok? ==> Launched(t, LaunchAll(t, b, roomId, launches).value, b, roomId, launches)
  {
    if launches == [] {
      assert SessionIds([]) == {} && ExecutionIds([]) == {};
    } else {
      var n := |launches| - 1;
      var few, l := launches[..n], launches[n];
      assert launches[..n + 1] == launches;
      hide LaunchIn, LaunchRow, OnlyAdds, MayLaunch, Apart;
      LaunchesWrite(t, b, roomId, few);
      MayLaunchSplits(t, launches, n);
      if LaunchAll(t, b, roomId, few).Ok? {
        var u := LaunchAll(t, b, roomId, few).value;
        MayLaunchStill(t, u, b, roomId, few, l);
        OneMoreLaunch(t, u, b, roomId, launches, n);
      }
    }
  }

  lemma MayLaunchSplits(t: Tables, launches: seq<Launch>, n: nat)
    requires n + 1 == |launches|
    ensures MayLaunchAll(t, launches)
            <==> MayLaunchAll(t, launches[..n]) && MayLaunch(t, launches[n])
                 && forall i :: 0 <= i < |launches[..n]| ==> Apart(launches[..n][i], launches[n])
  {
    hide MayLaunch, Apart;
    if MayLaunchAll(t, launches[..n]) && MayLaunch(t, launches[n])
       && forall i :: 0 <= i < |launches[..n]| ==> Apart(launches[..n][i], launches[n]) {
      forall i, j | 0 <= i < j < |launches| ensures Apart(launches[i], launches[j]) {
        assert launches[..n][i] == launches[i];
        if j < n {
          assert launches[..n][j] == launches[j];
        }
      }
      forall i | 0 <= i < |launches| ensures MayLaunch(t, launches[i]) {
        if i < n {
          assert launches[..n][i] == launches[i];
        }
      }
    }
  }

  lemma OneMoreLaunch(t: Tables, u: Tables, b: string, roomId: string, launches: seq<Launch>, n: nat)
    requires n + 1 == |launches| && Launched(t, u, b, roomId, launches[..n])
    requires b in t.branches && t.branches[b].roomId == roomId
    ensures LaunchIn(u, b, roomId, launches[n]).Ok? <==> MayLaunch(u, launches[n])
    ensures LaunchIn(u, b, roomId, launches[n]).Ok? ==>
              Launched(t, LaunchIn(u, b, roomId, launches[n]).value, b, roomId, launches)
  {
    LaunchIff(u, b, roomId, launches[n]);
    if LaunchIn(u, b, roomId, launches[n]).Ok? {
      var w := LaunchIn(u, b, roomId, launches[n]).value;
      LaunchWrites(u, b, roomId, launches[n]);
      hide LaunchIn, LaunchRow, MayLaunch;
      OneMoreId(launches, n);
      OnlyAddsTwice(t, u, w, SessionIds(launches[..n]), ExecutionIds(launches[..n]), launches[n]);
      assert launches[..n + 1] == launches;
      forall i | 0 <= i < |launches| ensures LaunchRow(w, launches[i], b, roomId) {
        if i < n {
          assert launches[..n][i] == launches[i];
          RowStays(u, w, launches[i], b, roomId);
        }
      }
    }
  }

  /** The party start_branch admits: one agent to take the turn, else two or three, all different and without a task. */
  ghost predicate Party(locked: bool, launches: seq<Launch>) {
    && (locked ==> |launches| == 1) && (!locked ==> |launches| == 2 || |launches| == 3)
    && (forall i :: 0 <= i < |launches| ==> launches[i].taskId == None)
    && forall i, j :: 0 <= i < j < |launches| ==> launches[i].agentId != launches[j].agentId
  }

  ghost predicate NewLock(t: Tables, lockId: Option<string>) {
    lockId.Some? ==> lockId.value !in t.released && forall r <- t.locks :: t.locks[r].lockId != lockId.value
  }

  /** The branch's own events, then one for each launch. */
  ghost predicate OpeningLog(log: seq<Entry>, after: seq<Entry>, b: string, roomId: string, lockId: Option<string>,
                             launches: seq<Launch>)
  {
    var own := [Entry(roomId, BranchStarted(b))]
               + if lockId.Some? then [Entry(roomId, LockAcquired(lockId.value, b))] else [];
    && |after| == |log| + |own| + |launches| && after[..|log| + |own|] == log + own
    && forall i :: 0 <= i < |launches| ==> after[|log| + |own| + i] == Entry(roomId, RunStarted(launches[i].executionId))
  }

  lemma OpeningLogs(log: seq<Entry>, b: string, roomId: string, lockId: Option<string>, launches: seq<Launch>)
    ensures OpeningLog(log, log + OpeningEntries(b, roomId, lockId, launches), b, roomId, lockId, launches)
  {
    var own := [Entry(roomId, BranchStarted(b))]
               + if lockId.Some? then [Entry(roomId, LockAcquired(lockId.value, b))] else [];
    var after := log + OpeningEntries(b, roomId, lockId, launches);
    assert after == log + own + StartedEntries(roomId, launches);
    assert after[..|log| + |own|] == log + own;
  }

  /** The branch row and, if the turn is asked for, the lock row. */
  lemma OpenedRows(t: Tables, b: string, roomId: string, lockId: Option<string>)
    ensures var o := Opened(t, b, roomId, lockId);
            && o == t.(branches := o.branches, locks := o.locks)
            && o.branches == t.branches[b := Branch(roomId, true, BranchStatus.Running)]
            && o.locks == if lockId.Some? then t.locks[roomId := TurnLock(lockId.value, b)] else t.locks
  {
  }

  lemma PartyIff(locked: bool, launches: seq<Launch>)
    ensures ValidParty(locked, launches) <==> Party(locked, launches)
  {
  }

  lemma NewLockIff(t: Tables, lockId: Option<string>)
    ensures NewLock(t, lockId) <==> lockId.None? || !LockIdTaken(t, lockId.value)
  {
  }

  /**
   A branch starts exactly with a party, a free turn and new ids, whether or not it asks for the turn; then there is
   a RUNNING managed branch, perhaps its lock, one PENDING execution with an open run per launch, and their events.
   */
  lemma BranchStartWrites(t: Tables, b: string, roomId: string, lockId: Option<string>, launches: seq<Launch>)
    ensures var r := Apply(t, BranchStart(b, roomId, lockId, launches));
            && (r.Ok? <==> && Party(lockId.Some?, launches) && roomId !in t.locks && b !in t.branches && NewLock(t, lockId)
                           && MayLaunchAll(t, launches))
            && (r.Ok? ==>
                  var u := r.value;
                  && u.branches == t.branches[b := Branch(roomId, true, BranchStatus.Running)]
                  && u.locks == (if lockId.Some? then t.locks[roomId := TurnLock(lockId.value, b)] else t.locks)
                  && Launched(t.(branches := u.branches, locks := u.locks, log := u.log), u, b, roomId, launches)
                  && OpeningLog(t.log, u.log, b, roomId, lockId, launches))
  {
    var o := Opened(t, b, roomId, lockId);
    PartyIff(lockId.Some?, launches);
    NewLockIff(t, lockId);
    OpenedRows(t, b, roomId, lockId);
    LaunchesWrite(o, b, roomId, launches);
    MayLaunchIn(t, o, launches);
    hide ValidParty, Party, NewLock, LockIdTaken, Opened, LaunchAll, MayLaunchAll, Launched, OpeningLog, OpeningEntries;
    assert StartBranch(t, b, roomId, lockId, launches).Ok?
           <==> && ValidParty(lockId.Some?, launches) && roomId !in t.locks && b !in t.branches
                && (lockId.None? || !LockIdTaken(t, lockId.value)) && LaunchAll(o, b, roomId, launches).Ok?;
    if StartBranch(t, b, roomId, lockId, launches).Ok? {
      StartBranchMeans(t, b, roomId, lockId, launches);
      hide StartBranch;
      StartedWrites(t, o, LaunchAll(o, b, roomId, launches).value, b, roomId, lockId, launches);
    }
  }

  lemma StartedWrites(t: Tables, o: Tables, w: Tables, b: string, roomId: string, lockId: Option<string>,
                      launches: seq<Launch>)
    requires Launched(o, w, b, roomId, launches) && o == t.(branches := o.branches, locks := o.locks)
    ensures var u := Append(w, OpeningEntries(b, roomId, lockId, launches));
            && u.branches == o.branches && u.locks == o.locks
            && Launched(t.(branches := u.branches, locks := u.locks, log := u.log), u, b, roomId, launches)
            && OpeningLog(t.log, u.log, b, roomId, lockId, launches)
  {
    hide OpeningEntries, OpeningLog, Launched;
    var u := Append(w, OpeningEntries(b, roomId, lockId, launches));
    OpeningLogs(t.log, b, roomId, lockId, launches);
    LaunchedIn(o, w, o.(log := u.log), u, b, roomId, launches);
  }

  lemma MayLaunchIn(t: Tables, o: Tables, launches: seq<Launch>)
    requires o.sessions == t.sessions && o.executions == t.executions && o.runs == t.runs
    ensures MayLaunchAll(o, launches) <==> MayLaunchAll(t, launches)
  {
    forall i | 0 <= i < |launches| ensures MayLaunch(o, launches[i]) <==> MayLaunch(t, launches[i]) {
    }
    hide MayLaunch, Apart;
  }

  lemma LaunchedIn(o: Tables, w: Tables, t: Tables, u: Tables, b: string, roomId: string, launches: seq<Launch>)
    requires Launched(o, w, b, roomId, launches) && t == o.(log := t.log) && u == w.(log := t.log)
    ensures Launched(t, u, b, roomId, launches) && w.log == o.log && w.branches == o.branches && w.locks == o.locks
  {
    forall i | 0 <= i < |launches| ensures LaunchRow(u, launches[i], b, roomId) {
      assert LaunchRow(w, launches[i], b, roomId);
    }
    hide LaunchRow;
  }

  /** The room's one unmanaged branch, and the rows with it in. */
  function LegacyId(t: Tables, roomId: string, newId: string): string {
    if roomId in t.legacy then t.legacy[roomId] else newId
  }

  ghost predicate LegacyThere(t: Tables, branches: map<string, Branch>, legacy: map<string, string>, roomId: string,
                              newId: string)
  {
    if roomId in t.legacy then branches == t.branches && legacy == t.legacy
    else && newId !in t.branches && branches == t.branches[newId := Branch(roomId, false, BranchStatus.Running)]
         && legacy == t.legacy[roomId := newId]
  }

  /** A mention or a resumed run: its session, execution and run in the room's legacy branch, and its one event. */
  lemma InvocationWrites(t: Tables, roomId: string, l: Launch, legacyId: string, kind: string)
    requires Apply(t, Invocation(roomId, l, legacyId, kind)).Ok?
    ensures var u := Apply(t, Invocation(roomId, l, legacyId, kind)).value;
            && LegacyThere(t, u.branches, u.legacy, roomId, legacyId)
            && LaunchRow(u, l, LegacyId(t, roomId, legacyId), roomId)
            && OnlyAdds(t.(branches := u.branches, legacy := u.legacy, log := u.log), u, {l.sessionId}, {l.executionId})
            && u.log == t.log + [Entry(roomId, Note(kind))]
  {
    var (t1, b) := LegacyBranch(t, roomId, legacyId).value;
    hide LaunchIn, LaunchRow, OpenRun, Extends;
    LaunchWrites(t1, b, roomId, l);
  }

  lemma LegacyWrites(t: Tables, roomId: string, newId: string)
    requires LegacyBranch(t, roomId, newId).Ok?
    ensures var (u, b) := LegacyBranch(t, roomId, newId).value;
            && b == LegacyId(t, roomId, newId) && LegacyThere(t, u.branches, u.legacy, roomId, newId)
            && u == t.(branches := u.branches, legacy := u.legacy)
  {
  }

  lemma TransitionWrites(t: Tables, k: string, expected: A.TaskState, target: A.TaskState)
    requires TransitionTask(t, k, expected, target).Ok?
    ensures k in t.tasks && t.tasks[k].state == expected && target in A.LegalTransitions(expected)
    ensures TransitionTask(t, k, expected, target).value == t.(tasks := t.tasks[k := t.tasks[k].(state := target)])
  {
  }

  lemma AttachWrites(t: Tables, k: string, e: string)
    requires AttachExecution(t, k, e).Ok?
    ensures k in t.tasks
    ensures AttachExecution(t, k, e).value == t.(tasks := t.tasks[k := t.tasks[k].(executionId := Some(e))])
  {
  }

  /** Attaching an execution and logging leave what a launch added. */
  lemma DrivenWrites(t: Tables, u: Tables, w: Tables, l: Launch, b: string, roomId: string)
    requires LaunchRow(u, l, b, roomId) && OnlyAdds(t, u, {l.sessionId}, {l.executionId})
    requires w == u.(tasks := w.tasks, log := w.log)
    ensures LaunchRow(w, l, b, roomId)
    ensures OnlyAdds(t.(tasks := w.tasks, log := w.log), w, {l.sessionId}, {l.executionId})
  {
  }

  /** A task starts from the state its caller read: WORKING, and driven by the new execution. */
  lemma TaskStartWrites(t: Tables, k: string, expected: A.TaskState, l: Launch, legacyId: string)
    requires Apply(t, TaskStart(k, expected, l, legacyId)).Ok?
    ensures var u := Apply(t, TaskStart(k, expected, l, legacyId)).value;
            && k in t.tasks && t.tasks[k].state == expected && A.Working in A.LegalTransitions(expected)
            && var roomId := t.tasks[k].roomId;
               && u.tasks == t.tasks[k := Task(roomId, Some(l.executionId), A.Working)]
               && LegacyThere(t, u.branches, u.legacy, roomId, legacyId)
               && LaunchRow(u, l.(taskId := Some(k)), LegacyId(t, roomId, legacyId), roomId)
               && OnlyAdds(t.(branches := u.branches, legacy := u.legacy, tasks := u.tasks, log := u.log), u, {l.sessionId},
                           {l.executionId})
               && u.log == t.log + [Entry(roomId, TaskMoved(k, A.Working))]
  {
    hide LaunchIn, StartTask, LegacyBranch, AttachExecution, TransitionTask, LaunchRow, OnlyAdds, A.LegalTransitions, OpenRun;
    StartTaskMeans(t, k, expected, l, legacyId);
    TransitionWrites(t, k, expected, A.Working);
    var t1 := TransitionTask(t, k, expected, A.Working).value;
    var (t2, b) := LegacyBranch(t1, t1.tasks[k].roomId, legacyId).value;
    var t3 := LaunchIn(t2, b, t1.tasks[k].roomId, l.(taskId := Some(k))).value;
    LegacyWrites(t1, t1.tasks[k].roomId, legacyId);
    AttachWrites(t3, k, l.executionId);
    LaunchWrites(t2, b, t1.tasks[k].roomId, l.(taskId := Some(k)));
    DrivenWrites(t2, t3, StartTask(t, k, expected, l, legacyId).value, l.(taskId := Some(k)), b, t1.tasks[k].roomId);
  }

  /** Starting in a given session and branch, by default the legacy one: not past another branch's turn. */
  lemma EventStartWrites(t: Tables, l: Launch, enveloped: bool, branchId: string, status: ExecutionStatus, legacyId: string,
                         kind: string)
    requires Apply(t, EventStart(l, enveloped, branchId, status, legacyId, kind)).Ok?
    ensures var u := Apply(t, EventStart(l, enveloped, branchId, status, legacyId, kind)).value;
            && l.sessionId in t.sessions
            && var roomId := t.sessions[l.sessionId].roomId;
               var b := if branchId == "" then LegacyId(t, roomId, legacyId) else branchId;
               && (roomId in t.locks ==> branchId == t.locks[roomId].branchId)
               && (if branchId == "" then LegacyThere(t, u.branches, u.legacy, roomId, legacyId)
                   else u.branches == t.branches && u.legacy == t.legacy)
               && l.executionId !in t.executions && (enveloped ==> l.executionId !in t.runs)
               && u == t.(branches := u.branches, legacy := u.legacy,
                          executions := t.executions[l.executionId := Execution(l.sessionId, l.agentId, b, l.taskId, status)],
                          sessions := t.sessions[l.sessionId := Session(roomId, Active)],
                          runs := if enveloped then t.runs[l.executionId := OpenRun(l, roomId)] else t.runs,
                          log := t.log + [Entry(roomId, Note(kind))])
  {
    hide StartIn, StartWithEvent, LegacyBranch, LegacyThere, LegacyId, OpenRun;
    StartWithEventMeans(t, l, enveloped, branchId, status, legacyId, kind);
    TurnIsOwn(t, l, enveloped, branchId, status, legacyId, kind);
    var room := t.sessions[l.sessionId].roomId;
    if branchId == "" {
      LegacyWrites(t, room, legacyId);
      var (t1, b) := LegacyBranch(t, room, legacyId).value;
      StartInWrites(t1, l, enveloped, b, status);
    } else {
      StartInWrites(t, l, enveloped, branchId, status);
    }
  }

  lemma TurnIsOwn(t: Tables, l: Launch, enveloped: bool, branchId: string, status: ExecutionStatus, legacyId: string, kind: string)
    requires StartWithEvent(t, l, enveloped, branchId, status, legacyId, kind).Ok?
    ensures l.sessionId in t.sessions
    ensures var roomId := t.sessions[l.sessionId].roomId;
            roomId in t.locks ==> branchId == t.locks[roomId].branchId
  {
    hide StartIn, LegacyBranch;
  }

  lemma StartInWrites(t: Tables, l: Launch, enveloped: bool, b: string, status: ExecutionStatus)
    requires l.sessionId in t.sessions && StartIn(t, l, enveloped, b, status).Ok?
    ensures var u, roomId := StartIn(t, l, enveloped, b, status).value, t.sessions[l.sessionId].roomId;
            && l.executionId !in t.executions && (enveloped ==> l.executionId !in t.runs)
            && u == t.(executions := t.executions[l.executionId := Execution(l.sessionId, l.agentId, b, l.taskId, status)],
                       sessions := t.sessions[l.sessionId := Session(roomId, Active)],
                       runs := if enveloped then t.runs[l.executionId := OpenRun(l, roomId)] else t.runs)
  {
  }

  // ---- When they go through

  /** In a reachable state an ending's settlement goes through unless the lease it was decided on was renewed. */
  lemma EndingSettlesIff(t: Tables, s: Tables, e: string, v: Verdict)
    requires Inv(t) && s == t.(executions := s.executions, outputs := s.outputs, sessions := s.sessions) && SameTaskId(t, s, e)
    ensures Settle(s, e, v).Ok?
            <==> (v.expectedLease.Some? && StillRuns(t, e) ==> t.runs[e].leaseExpiresAt == v.expectedLease.value)
  {
    if RunOpen(s, e) {
      T.SettleRaisesIff(s, e, v);
      DrivenHasStarted(t, s, e);
      hide Settle, Inv;
    }
  }

  lemma DrivenHasStarted(t: Tables, s: Tables, e: string)
    requires Inv(t) && s.tasks == t.tasks
    ensures Unsettled(s, e) ==> !s.tasks[TaskFor(s, e).value].state.Submitted?
  {
    if Unsettled(s, e) {
      var k := TaskFor(s, e).value;
      assert Attached(k, t.tasks[k], t.executions, t.runs);
    }
  }

  /** An ending goes through exactly as FAILED or CANCELLED, from the status read, with a session and an unrenewed lease. */
  lemma TerminationSucceedsIff(t: Tables, x: Snapshot, status: ExecutionStatus, notes: seq<string>,
                               settlement: Option<RunSettlement>, decidedBy: string, lease: Option<int>, now: int)
    requires Inv(t)
    ensures Apply(t, Termination(x, status, notes, settlement, decidedBy, lease, now)).Ok?
            <==> && (status == ExecutionStatus.Failed || status == ExecutionStatus.Cancelled)
                 && x.executionId in t.executions && t.executions[x.executionId].status == x.status && x.sessionId in t.sessions
                 && (lease.Some? && StillRuns(t, x.executionId) ==> t.runs[x.executionId].leaseExpiresAt == lease.value)
  {
    hide Settle, Inv, Terminalize, Terminated, StillRuns;
    var v := Verdict(settlement.GetOr(DefaultSettlement(status)), if decidedBy != "" then decidedBy else x.agentId, now,
                     lease);
    TerminalizeIff(t, x, status, notes, settlement, decidedBy, v);
    if x.executionId in t.executions && x.sessionId in t.sessions {
      TerminatedSame(t, x, status);
      EndingSettlesIff(t, Terminated(t, x, status), x.executionId, v);
    }
  }

  lemma TerminatedSame(t: Tables, x: Snapshot, status: ExecutionStatus)
    requires x.executionId in t.executions
    ensures var s := Terminated(t, x, status);
            s == t.(executions := s.executions, outputs := s.outputs, sessions := s.sessions) && SameTaskId(t, s, x.executionId)
  {
  }

  lemma TerminalizeIff(t: Tables, x: Snapshot, status: ExecutionStatus, notes: seq<string>,
                       settlement: Option<RunSettlement>, decidedBy: string, v: Verdict)
    requires v.settlement == settlement.GetOr(DefaultSettlement(status))
    requires v.decidedBy == if decidedBy != "" then decidedBy else x.agentId
    ensures Terminalize(t, x, status, notes, settlement, decidedBy, v.expectedLease, v.now).Ok?
            <==> && (status.Failed? || status.Cancelled?)
                 && x.executionId in t.executions && t.executions[x.executionId].status == x.status && x.sessionId in t.sessions
                 && Settle(Terminated(t, x, status), x.executionId, v).Ok?
  {
    hide Settle, FinishBranch, Notes;
  }

  ghost predicate MayHaveLegacy(t: Tables, roomId: string, newId: string) {
    roomId in t.legacy || newId !in t.branches
  }

  lemma LegacyLaunchIff(t: Tables, roomId: string, l: Launch, legacyId: string)
    requires Linked(t.executions, t.sessions, t.branches, t.legacy)
    ensures LegacyBranch(t, roomId, legacyId).Ok? <==> MayHaveLegacy(t, roomId, legacyId)
    ensures MayHaveLegacy(t, roomId, legacyId) ==>
              var (t1, b) := LegacyBranch(t, roomId, legacyId).value;
              LaunchIn(t1, b, roomId, l).Ok? <==> MayLaunch(t, l)
  {
    if MayHaveLegacy(t, roomId, legacyId) {
      var (t1, b) := LegacyBranch(t, roomId, legacyId).value;
      LaunchIff(t1, b, roomId, l);
      hide LaunchIn;
    }
  }

  /** A mention goes through exactly when the room has, or may have, its legacy branch and the launch's ids are new. */
  lemma InvocationSucceedsIff(t: Tables, roomId: string, l: Launch, legacyId: string, kind: string)
    requires Inv(t)
    ensures Apply(t, Invocation(roomId, l, legacyId, kind)).Ok? <==> MayHaveLegacy(t, roomId, legacyId) && MayLaunch(t, l)
  {
    hide LaunchIn, LegacyBranch, MayHaveLegacy, MayLaunch;
    LegacyLaunchIff(t, roomId, l, legacyId);
  }

  /** And a task starts exactly when it is in the state read, and that is SUBMITTED, INPUT_REQUIRED or AUTH_REQUIRED. */
  lemma TaskStartSucceedsIff(t: Tables, k: string, expected: A.TaskState, l: Launch, legacyId: string)
    requires Inv(t)
    ensures Apply(t, TaskStart(k, expected, l, legacyId)).Ok?
            <==> && k in t.tasks && t.tasks[k].state == expected
                 && (expected == A.Submitted || expected == A.InputRequired || expected == A.AuthRequired)
                 && MayHaveLegacy(t, t.tasks[k].roomId, legacyId) && MayLaunch(t, l)
  {
    assert Linked(t.executions, t.sessions, t.branches, t.legacy);
    hide LaunchIn, LegacyBranch, MayHaveLegacy, MayLaunch, TransitionTask, Inv, Linked, A.LegalTransitions, AttachExecution, Moved;
    WorkIsEntered(t, k, expected);
    var r := TransitionTask(t, k, expected, A.Working);
    if r.Ok? {
      TransitionWrites(t, k, expected, A.Working);
      var own := l.(taskId := Some(k));
      LegacyLaunchIff(r.value, t.tasks[k].roomId, own, legacyId);
      SameLaunch(t, r.value, l, k, legacyId);
      if LegacyBranch(r.value, t.tasks[k].roomId, legacyId).Ok? {
        LaunchedAttaches(r.value, t.tasks[k].roomId, own, legacyId, k);
      }
    }
  }

  lemma WorkIsEntered(t: Tables, k: string, expected: A.TaskState)
    ensures TransitionTask(t, k, expected, A.Working).Ok?
            <==> && k in t.tasks && t.tasks[k].state == expected
                 && (expected == A.Submitted || expected == A.InputRequired || expected == A.AuthRequired)
  {
    assert A.Working in A.LegalTransitions(expected)
           <==> expected == A.Submitted || expected == A.InputRequired || expected == A.AuthRequired;
    hide A.LegalTransitions;
  }

  lemma SameLaunch(t: Tables, u: Tables, l: Launch, k: string, legacyId: string)
    requires u == t.(tasks := u.tasks)
    ensures MayLaunch(u, l.(taskId := Some(k))) <==> MayLaunch(t, l)
    ensures forall roomId: string :: MayHaveLegacy(u, roomId, legacyId) <==> MayHaveLegacy(t, roomId, legacyId)
  {
  }

  lemma LaunchedAttaches(t: Tables, roomId: string, l: Launch, legacyId: string, k: string)
    requires k in t.tasks && t.tasks[k].state.Working? && LegacyBranch(t, roomId, legacyId).Ok?
    ensures var (t1, b) := LegacyBranch(t, roomId, legacyId).value;
            var r := LaunchIn(t1, b, roomId, l);
            r.Ok? ==> AttachExecution(r.value, k, l.executionId).Ok?
  {
    LegacyWrites(t, roomId, legacyId);
    var (t1, b) := LegacyBranch(t, roomId, legacyId).value;
    TerminalIff(A.Working);
    if LaunchIn(t1, b, roomId, l).Ok? {
      LaunchWrites(t1, b, roomId, l);
    }
    hide LaunchIn, LegacyBranch, LaunchRow;
  }

  /** An execution starts with its event exactly in a session, not past another branch's turn, in a branch of the room. */
  lemma EventStartSucceedsIff(t: Tables, l: Launch, enveloped: bool, branchId: string, status: ExecutionStatus,
                              legacyId: string, kind: string)
    requires Inv(t)
    ensures Apply(t, EventStart(l, enveloped, branchId, status, legacyId, kind)).Ok?
            <==> && l.sessionId in t.sessions && l.executionId !in t.executions
                 && var roomId := t.sessions[l.sessionId].roomId;
                    && (roomId in t.locks ==> t.locks[roomId].branchId == branchId)
                    && (if branchId == "" then MayHaveLegacy(t, roomId, legacyId)
                        else branchId in t.branches && t.branches[branchId].roomId == roomId)
                    && (enveloped ==> MayEnvelop(t, l))
  {
    hide StartIn, LegacyBranch, LaunchIn, MayLaunch, Inv, MayHaveLegacy, MayEnvelop;
    if l.sessionId in t.sessions {
      if branchId == "" {
        LegacyStartIff(t, l, enveloped, status, legacyId);
      } else {
        StartInIff(t, l, enveloped, branchId, status);
      }
    }
  }

  lemma LegacyStartIff(t: Tables, l: Launch, enveloped: bool, status: ExecutionStatus, legacyId: string)
    requires Inv(t) && l.sessionId in t.sessions
    ensures var roomId := t.sessions[l.sessionId].roomId;
            var legacy := LegacyBranch(t, roomId, legacyId);
            && (legacy.Ok? <==> MayHaveLegacy(t, roomId, legacyId))
            && (legacy.Ok? ==> && legacy.value.0.sessions == t.sessions
                               && (StartIn(legacy.value.0, l, enveloped, legacy.value.1, status).Ok?
                                   <==> l.executionId !in t.executions && (enveloped ==> MayEnvelop(t, l))))
  {
    var roomId := t.sessions[l.sessionId].roomId;
    var legacy := LegacyBranch(t, roomId, legacyId);
    if legacy.Ok? {
      var (t1, b) := legacy.value;
      assert b in t1.branches && t1.branches[b].roomId == roomId;
      StartInIff(t1, l, enveloped, b, status);
      hide StartIn;
    }
  }

  ghost predicate MayEnvelop(t: Tables, l: Launch) {
    && l.admitted && l.attempts >= 1 && l.maxAttempts >= 1 && l.executionId !in t.runs
    && forall e <- t.runs :: t.runs[e].runId != l.runId
  }

  lemma StartInIff(t: Tables, l: Launch, enveloped: bool, b: string, status: ExecutionStatus)
    requires l.sessionId in t.sessions
    ensures StartIn(t, l, enveloped, b, status).Ok?
            <==> && l.executionId !in t.executions && b in t.branches
                 && t.branches[b].roomId == t.sessions[l.sessionId].roomId && (enveloped ==> MayEnvelop(t, l))
  {
    var t2 := MarkSession(t, l.sessionId, Active);
    var x := Execution(l.sessionId, l.agentId, b, l.taskId, status);
    var t3 := InsertExecution(t2, l.executionId, x);
    assert t3.Ok? <==> l.executionId !in t.executions && b in t.branches
                       && t.branches[b].roomId == t.sessions[l.sessionId].roomId;
    if t3.Ok? {
      assert t3.value.runs == t.runs && l.executionId in t3.value.executions;
      hide InsertExecution, MarkSession;
      EnvelopIff(t3.value, t.sessions[l.sessionId].roomId, l);
      hide InsertRun;
    }
  }

  lemma EnvelopIff(t: Tables, roomId: string, l: Launch)
    requires l.executionId in t.executions
    ensures InsertRun(t, roomId, l).Ok? <==> MayEnvelop(t, l)
  {
  }

  // ---- Small steps

  /** A guarded update moves its one row from the state its caller read, or raises. */
  lemma MovesWrite(t: Tables, e: string, status: ExecutionStatus, expected: ExecutionStatus, k: string, from: A.TaskState,
                   to: A.TaskState)
    ensures After(t, StatusUpdate(e, status, expected))
            == if e in t.executions && t.executions[e].status == expected
               then t.(executions := t.executions[e := WithStatus(t.executions[e], status)]) else t
    ensures After(t, TaskTransition(k, from, to))
            == if k in t.tasks && t.tasks[k].state == from && to in A.LegalTransitions(from)
               then t.(tasks := t.tasks[k := Task(t.tasks[k].roomId, t.tasks[k].executionId, to)]) else t
  {
  }

  /** A human cannot post into a room whose turn is held, and nobody twice under one id; a post is stored and announced. */
  lemma PostingWrites(t: Tables, messageId: string, m: Message, k: string, roomId: string)
    ensures After(t, Posting(messageId, m))
            == if (m.human && m.roomId in t.locks) || messageId in t.messages then t
               else t.(messages := t.messages[messageId := m], log := t.log + [Entry(m.roomId, MessagePosted(messageId))])
    ensures After(t, TaskOpening(k, roomId))
            == if k in t.tasks then t else t.(tasks := t.tasks[k := Task(roomId, None, A.Submitted)])
  {
  }
}
