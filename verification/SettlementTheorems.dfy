/** What the settlement kernel promises: joint settlement, settlements that stay, and the turn lock's exclusion. */
module SettlementTheorems {
  import opened Prelude
  import A = AgentTasks
  import opened Settlement
  import opened SettlementInvariant
  import opened SettlementSteps

  // ---- When a settlement raises

  predicate Renewed(t: Tables, e: string, v: Verdict)
    requires RunOpen(t, e)
  {
    v.expectedLease.Some? && v.expectedLease.value != t.runs[e].leaseExpiresAt
  }

  /** A SUBMITTED task has no edge to FAILED. */
  predicate CannotFail(t: Tables, e: string, v: Verdict) {
    && Unsettled(t, e) && t.tasks[TaskFor(t, e).value].state.Submitted?
    && !(v.settlement.EndTurn? && e in t.outputs) && !v.settlement.Cancelled? && !v.settlement.AgentRemoved?
  }

  /** Settling an open run raises exactly when its lease was renewed, or its task is SUBMITTED and would have to fail. */
  lemma SettleRaisesIff(t: Tables, e: string, v: Verdict)
    requires RunOpen(t, e)
    ensures Settle(t, e, v).Err? <==> Renewed(t, e, v) || CannotFail(t, e, v)
  {
    var t1 := t.(runs := t.runs[e := SettledRun(t.runs[e], v)]);
    assert TaskFor(t1, e) == TaskFor(t, e);
    if Unsettled(t1, e) {
      if v.settlement.EndTurn? && e in t1.outputs {
        SettleAnswered(t1, e);
      } else {
        SettleUnanswered(t1, e, v.settlement);
      }
    }
  }

  /** In a reachable state only a renewed lease stops a settlement: an attached task has left SUBMITTED. */
  lemma ReachableSettles(actions: seq<Action>, e: string, v: Verdict)
    requires Lawful(actions) && RunOpen(Run(actions), e)
    ensures Settle(Run(actions), e, v).Err? <==> Renewed(Run(actions), e, v)
  {
    var t := Run(actions);
    EveryRunIsSound(actions);
    SettleRaisesIff(t, e, v);
    if Unsettled(t, e) {
      var k := TaskFor(t, e).value;
      assert Attached(k, t.tasks[k], t.executions, t.runs);
    }
  }

  /** No reachable state has a task still WORKING behind a run that settled, which a sweep looks for. */
  lemma NoTaskWaitsBehindASettledRun(actions: seq<Action>, k: string, e: string)
    requires Lawful(actions) && k in Run(actions).tasks && Run(actions).tasks[k].executionId == Some(e)
    ensures e in Run(actions).runs && !Run(actions).tasks[k].state.Submitted?
    ensures Run(actions).runs[e].state.Settled? ==> A.Terminal(Run(actions).tasks[k].state)
  {
    EveryRunIsSound(actions);
    var t := Run(actions);
    assert Attached(k, t.tasks[k], t.executions, t.runs);
  }

  /** Once its execution ended, settling a run again is a step that changes nothing and raises nothing. */
  lemma EndedRunsNeedNoSettling(actions: seq<Action>, e: string, v: Verdict)
    requires Lawful(actions) && e in Run(actions).executions && Ended(Run(actions).executions[e].status)
    ensures SettleAlone(Run(actions), e, v) == Ok(Run(actions))
  {
    EveryRunIsSound(actions);
    assert Run(actions).log + [] == Run(actions).log;
  }

  // ---- What a settlement does to its task

  /** The states the entries of a task settlement report. */
  function TaskStates(entries: seq<Entry>): seq<A.TaskState> {
    if entries == [] then []
    else
      var fact := entries[|entries| - 1].fact;
      TaskStates(entries[..|entries| - 1]) + if fact.TaskMoved? then [fact.state] else []
  }

  /** How a task settlement ends its task k, whose state and conversation were these. */
  ghost predicate Ends(task: Task, said: seq<TaskMessage>, settlement: RunSettlement, answer: Option<string>,
                       after: Task, saidAfter: seq<TaskMessage>)
  {
    && A.Terminal(after.state) && after.executionId == task.executionId
    && (after.state.Completed? <==> answer.Some?)
    && (after.state.Canceled? <==> settlement.Cancelled? || settlement.AgentRemoved?)
    && (after.state.Rejected? <==> settlement.ApprovalRefused? && task.state.AuthRequired?)
    && saidAfter == said + (if answer.Some? then [DelegateSays(answer.value)] else [])
  }

  function AnswerTo(t: Tables, e: string, settlement: RunSettlement): Option<string> {
    if settlement.EndTurn? && e in t.outputs then Some(t.outputs[e].content) else None
  }

  /** The path the reported states take from a state to another. */
  ghost predicate Reports(entries: seq<Entry>, from: A.TaskState, to: A.TaskState) {
    var path := TaskStates(entries);
    A.LegalPath(from, path) && path != [] && path[|path| - 1] == to
  }

  /**
   The task ends by a legal path, which the events report: COMPLETED exactly when the turn ended with an
   output, whose text is then the delegate's last word; otherwise the conversation is untouched.
   */
  lemma JointSettlement(t: Tables, e: string, v: Verdict)
    requires RunOpen(t, e) && Unsettled(t, e) && Settle(t, e, v).Ok?
    ensures var k := TaskFor(t, e).value;
            var w := Settle(t, e, v).value;
            && w.tables.tasks.Keys == t.tasks.Keys
            && Ends(t.tasks[k], Conversation(t, k), v.settlement, AnswerTo(t, e, v.settlement),
                    w.tables.tasks[k], Conversation(w.tables, k))
            && Reports(w.entries, t.tasks[k].state, w.tables.tasks[k].state)
            && forall k' <- t.tasks :: k' != k ==> w.tables.tasks[k'] == t.tasks[k']
  {
    var t1 := WithRunSettled(t, e, v);
    SettleAsTask(t, e, v);
    TaskEnds(t1, e, v.settlement);
    if AnswerTo(t1, e, v.settlement).Some? {
      AnsweredReports(t1, e);
    } else {
      UnansweredReports(t1, e, v.settlement);
    }
  }

  function WithRunSettled(t: Tables, e: string, v: Verdict): Tables
    requires RunOpen(t, e)
  {
    t.(runs := t.runs[e := SettledRun(t.runs[e], v)])
  }

  /** Settling an open run is settling its task over the settled run, reported in the same states. */
  lemma SettleAsTask(t: Tables, e: string, v: Verdict)
    requires RunOpen(t, e) && Settle(t, e, v).Ok?
    ensures var t1 := WithRunSettled(t, e, v);
            && TaskFor(t1, e) == TaskFor(t, e)
            && SettleTask(t1, e, v.settlement).Ok?
            && Settle(t, e, v).value.tables == SettleTask(t1, e, v.settlement).value.tables
            && TaskStates(Settle(t, e, v).value.entries) == TaskStates(SettleTask(t1, e, v.settlement).value.entries)
  {
    var own := SettledEntries(t.runs[e], e, v);
    var entries := SettleTask(WithRunSettled(t, e, v), e, v.settlement).value.entries;
    StatesAppend(own, entries);
    NoTaskStates(own);
  }

  lemma TaskEnds(t: Tables, e: string, settlement: RunSettlement)
    requires Unsettled(t, e) && SettleTask(t, e, settlement).Ok?
    ensures var k := TaskFor(t, e).value;
            var u := SettleTask(t, e, settlement).value.tables;
            && u.tasks.Keys == t.tasks.Keys
            && Ends(t.tasks[k], Conversation(t, k), settlement, AnswerTo(t, e, settlement), u.tasks[k], Conversation(u, k))
            && forall k' <- t.tasks :: k' != k ==> u.tasks[k'] == t.tasks[k']
  {
    if AnswerTo(t, e, settlement).Some? {
      SettleAnswered(t, e);
    } else {
      SettleUnanswered(t, e, settlement);
    }
  }

  lemma UnansweredReports(t: Tables, e: string, settlement: RunSettlement)
    requires Unsettled(t, e) && AnswerTo(t, e, settlement).None? && SettleTask(t, e, settlement).Ok?
    ensures var state := t.tasks[TaskFor(t, e).value].state;
            Reports(SettleTask(t, e, settlement).value.entries, state, TaskTarget(state, settlement, false))
  {
    SettleUnanswered(t, e, settlement);
    var state := t.tasks[TaskFor(t, e).value].state;
    OneState(SettleTask(t, e, settlement).value.entries);
    OneStepPath(state, TaskTarget(state, settlement, false));
  }

  lemma AnsweredReports(t: Tables, e: string)
    requires Unsettled(t, e) && e in t.outputs
    ensures SettleTask(t, e, EndTurn).Ok?
    ensures Reports(SettleTask(t, e, EndTurn).value.entries, t.tasks[TaskFor(t, e).value].state, A.Completed)
  {
    SettleAnswered(t, e);
    OneStepPath(A.Working, A.Completed);
    var entries := SettleTask(t, e, EndTurn).value.entries;
    if t.tasks[TaskFor(t, e).value].state.Working? {
      OneState(entries);
    } else {
      TwoStates(entries);
      assert [A.Working, A.Completed][1..] == [A.Completed];
    }
  }

  lemma {:induction false} StatesAppend(a: seq<Entry>, b: seq<Entry>)
    ensures TaskStates(a + b) == TaskStates(a) + TaskStates(b)
  {
    if b == [] {
      assert a + b == a;
    } else {
      StatesAppend(a, b[..|b| - 1]);
      assert (a + b)[..|a + b| - 1] == a + b[..|b| - 1];
    }
  }

  lemma NoTaskStates(entries: seq<Entry>)
    requires |entries| <= 2 && forall i :: 0 <= i < |entries| ==> !entries[i].fact.TaskMoved?
    ensures TaskStates(entries) == []
  {
    if |entries| == 2 {
      assert entries[..1][..0] == [];
    }
  }

  lemma OneState(entries: seq<Entry>)
    requires |entries| == 1 && entries[0].fact.TaskMoved?
    ensures TaskStates(entries) == [entries[0].fact.state]
  {
    assert entries[..0] == [];
  }

  lemma TwoStates(entries: seq<Entry>)
    requires |entries| == 2 && entries[0].fact.TaskMoved? && entries[1].fact.TaskMoved?
    ensures TaskStates(entries) == [entries[0].fact.state, entries[1].fact.state]
  {
    OneState(entries[..1]);
  }

  lemma OneStepPath(from: A.TaskState, to: A.TaskState)
    requires to in A.LegalTransitions(from)
    ensures A.LegalPath(from, [to])
  {
    assert [to][1..] == [];
  }

  /** A superseded execution, or one whose task already ended, leaves every task and conversation alone. */
  lemma SupersededLeavesTasks(t: Tables, e: string, v: Verdict)
    requires !Unsettled(t, e)
    ensures !RunOpen(t, e) ==> Settle(t, e, v) == Ok(Written(t, []))
    ensures Settle(t, e, v).Ok? ==> var u := Settle(t, e, v).value.tables;
                                    u.tasks == t.tasks && u.taskMessages == t.taskMessages
  {
    if Settle(t, e, v).Ok? {
      SettleMeans(t, e, v);
    }
  }

  // ---- What never changes again

  /** A run keeps its identity, and attempts grow only up to its maximum. */
  predicate Charged(before: AgentRun, after: AgentRun) {
    && after.runId == before.runId && after.maxAttempts == before.maxAttempts
    && before.attempts <= after.attempts
    && (before.attempts < after.attempts ==> after.attempts <= after.maxAttempts)
  }

  /** Settled runs, ended executions, outputs, finished branches, terminal tasks and what was logged, all as they were. */
  ghost predicate Stays(t: Tables, u: Tables) {
    && (forall e <- t.runs :: e in u.runs && Charged(t.runs[e], u.runs[e]))
    && (forall e <- t.runs :: t.runs[e].state.Settled? ==> e in u.runs && u.runs[e] == t.runs[e])
    && (forall e <- t.executions :: Ended(t.executions[e].status) ==> e in u.executions && u.executions[e] == t.executions[e])
    && Extends(t.outputs, u.outputs)
    && (forall b <- t.branches :: Finished(t.branches[b].status) ==> b in u.branches && u.branches[b] == t.branches[b])
    && (forall k <- t.tasks :: A.Terminal(t.tasks[k].state) ==> k in u.tasks && u.tasks[k] == t.tasks[k])
    && t.log <= u.log
  }

  /** A turn stays with the branch that holds it until a step that ends that branch. */
  ghost predicate TurnsStay(t: Tables, u: Tables) {
    forall r <- t.locks :: || (r in u.locks && u.locks[r] == t.locks[r])
                           || (t.locks[r].branchId in u.branches && Finished(u.branches[t.locks[r].branchId].status))
  }

  ghost predicate Kept(t: Tables, u: Tables) {
    Stays(t, u) && TurnsStay(t, u)
  }

  lemma KeptTwice(t: Tables, u: Tables, w: Tables)
    requires Kept(t, u) && Kept(u, w)
    ensures Kept(t, w)
  {
  }

  lemma SettleKept(t: Tables, e: string, v: Verdict)
    requires Settle(t, e, v).Ok?
    ensures Kept(t, Settle(t, e, v).value.tables)
  {
    SettleMeans(t, e, v);
  }

  lemma FinishKept(t: Tables, b: string, roomId: string, entries: seq<Entry>)
    ensures Kept(t, Append(FinishBranch(t, b, roomId).tables, entries))
  {
    FinishMeans(t, b, roomId);
  }

  lemma EndKept(t: Tables, u: Tables, e: string, v: Verdict, b: string, roomId: string, entries: seq<Entry>)
    requires EndedIn(t, u, e) && Extends(t.outputs, u.outputs) && Settle(u, e, v).Ok?
    ensures Kept(t, Append(FinishBranch(Settle(u, e, v).value.tables, b, roomId).tables, entries))
  {
    assert Kept(t, u);
    SettleKept(u, e, v);
    var w := Settle(u, e, v).value.tables;
    KeptTwice(t, u, w);
    FinishKept(w, b, roomId, entries);
    KeptTwice(t, w, Append(FinishBranch(w, b, roomId).tables, entries));
  }

  lemma AnsweredKeepsOutputs(t: Tables, a: Answer)
    requires a.executionId in t.executions && a.executionId !in t.outputs
    ensures Extends(t.outputs, Answered(t, a).outputs)
  {
  }

  lemma CompleteKept(t: Tables, a: Answer, notes: seq<string>, expected: ExecutionStatus,
                     message: Option<(string, Message)>, now: int)
    requires Inv(t) && Complete(t, a, notes, expected, message, now).Ok? && !Ended(expected)
    ensures Kept(t, Complete(t, a, notes, expected, message, now).value)
  {
    CompleteMeans(t, a, notes, expected, message, now);
    AnsweredIsEnded(t, a);
    AnsweredKeepsOutputs(t, a);
    var v := Verdict(EndTurn, a.agentId, now, None);
    var w := Settle(Answered(t, a), a.executionId, v).value;
    var f := FinishBranch(w.tables, a.branchId, a.roomId);
    var entries := Notes(a.roomId, notes) + w.entries + f.entries;
    EndKept(t, Answered(t, a), a.executionId, v, a.branchId, a.roomId, entries);
    if message.Some? {
      PostKept(Append(f.tables, entries), message.value.0, message.value.1);
      hide Kept, Inv, Complete;
      KeptTwice(t, Append(f.tables, entries), Complete(t, a, notes, expected, message, now).value);
    }
  }

  lemma TerminatedKeepsOutputs(t: Tables, x: Snapshot, status: ExecutionStatus)
    requires x.executionId in t.executions
    ensures Terminated(t, x, status).outputs == t.outputs
  {
  }

  lemma TerminalizeKept(t: Tables, x: Snapshot, status: ExecutionStatus, notes: seq<string>,
                        settlement: Option<RunSettlement>, decidedBy: string, lease: Option<int>, now: int)
    requires Inv(t) && Terminalize(t, x, status, notes, settlement, decidedBy, lease, now).Ok? && !Ended(x.status)
    ensures Kept(t, Terminalize(t, x, status, notes, settlement, decidedBy, lease, now).value)
  {
    TerminalizeMeans(t, x, status, notes, settlement, decidedBy, lease, now);
    TerminatedIsEnded(t, x, status);
    TerminatedKeepsOutputs(t, x, status);
    var room := t.sessions[x.sessionId].roomId;
    var v := Verdict(settlement.GetOr(DefaultSettlement(status)), if decidedBy != "" then decidedBy else x.agentId, now,
                     lease);
    var w := Settle(Terminated(t, x, status), x.executionId, v).value;
    var entries := Notes(room, notes) + w.entries + FinishBranch(w.tables, x.branchId, room).entries;
    EndKept(t, Terminated(t, x, status), x.executionId, v, x.branchId, room, entries);
  }

  lemma GrowthKept(t: Tables, u: Tables, b: string, entries: seq<Entry>)
    requires Grown(t, u, b)
    ensures Kept(t, Append(u, entries))
  {
  }

  lemma LegacyKept(t: Tables, roomId: string, newId: string)
    requires LegacyBranch(t, roomId, newId).Ok?
    ensures Kept(t, LegacyBranch(t, roomId, newId).value.0)
  {
  }

  lemma LaunchKept(t: Tables, b: string, roomId: string, l: Launch)
    requires LaunchIn(t, b, roomId, l).Ok?
    ensures Kept(t, LaunchIn(t, b, roomId, l).value)
  {
    LaunchGrows(t, b, roomId, l);
    GrowthKept(t, LaunchIn(t, b, roomId, l).value, b, []);
  }

  lemma InvokeKept(t: Tables, roomId: string, l: Launch, legacyId: string, kind: string)
    requires Invoke(t, roomId, l, legacyId, kind).Ok?
    ensures Kept(t, Invoke(t, roomId, l, legacyId, kind).value)
  {
    LegacyKept(t, roomId, legacyId);
    var (t1, b) := LegacyBranch(t, roomId, legacyId).value;
    LaunchKept(t1, b, roomId, l);
    KeptTwice(t, t1, Invoke(t, roomId, l, legacyId, kind).value);
  }

  lemma TransitionKept(t: Tables, k: string, expected: A.TaskState, target: A.TaskState)
    requires TransitionTask(t, k, expected, target).Ok?
    ensures Kept(t, TransitionTask(t, k, expected, target).value)
  {
  }

  lemma AttachKept(t: Tables, k: string, e: string, entries: seq<Entry>)
    requires AttachExecution(t, k, e).Ok?
    ensures Kept(t, Append(AttachExecution(t, k, e).value, entries))
  {
  }

  lemma StartTaskKept(t: Tables, k: string, expected: A.TaskState, l: Launch, legacyId: string)
    requires StartTask(t, k, expected, l, legacyId).Ok?
    ensures Kept(t, StartTask(t, k, expected, l, legacyId).value)
  {
    StartTaskMeans(t, k, expected, l, legacyId);
    TransitionKept(t, k, expected, A.Working);
    var t1 := TransitionTask(t, k, expected, A.Working).value;
    var room := t1.tasks[k].roomId;
    LegacyKept(t1, room, legacyId);
    var (t2, b) := LegacyBranch(t1, room, legacyId).value;
    KeptTwice(t, t1, t2);
    var own := l.(taskId := Some(k));
    var t3 := LaunchIn(t2, b, room, own).value;
    LaunchKept(t2, b, room, own);
    KeptTwice(t, t2, t3);
    var t4 := AttachExecution(t3, k, l.executionId).value;
    AttachKept(t3, k, l.executionId, [Moved(t4, k)]);
    KeptTwice(t, t3, Append(t4, [Moved(t4, k)]));
  }

  lemma StartWithEventKept(t: Tables, l: Launch, enveloped: bool, branchId: string, status: ExecutionStatus,
                           legacyId: string, kind: string)
    requires StartWithEvent(t, l, enveloped, branchId, status, legacyId, kind).Ok? && !Ended(status)
    ensures Kept(t, StartWithEvent(t, l, enveloped, branchId, status, legacyId, kind).value)
  {
    StartWithEventMeans(t, l, enveloped, branchId, status, legacyId, kind);
    var room := t.sessions[l.sessionId].roomId;
    if branchId == "" {
      LegacyKept(t, room, legacyId);
      var (t1, b) := LegacyBranch(t, room, legacyId).value;
      StartInGrows(t1, l, enveloped, b, status);
      GrowthKept(t1, StartIn(t1, l, enveloped, b, status).value, b, [Entry(room, Note(kind))]);
      KeptTwice(t, t1, StartWithEvent(t, l, enveloped, branchId, status, legacyId, kind).value);
    } else {
      StartInGrows(t, l, enveloped, branchId, status);
      GrowthKept(t, StartIn(t, l, enveloped, branchId, status).value, branchId, [Entry(room, Note(kind))]);
    }
  }

  lemma StartBranchKept(t: Tables, b: string, roomId: string, lockId: Option<string>, launches: seq<Launch>)
    requires StartBranch(t, b, roomId, lockId, launches).Ok?
    ensures Kept(t, StartBranch(t, b, roomId, lockId, launches).value)
  {
    StartBranchMeans(t, b, roomId, lockId, launches);
    var u := Opened(t, b, roomId, lockId);
    assert Kept(t, u);
    LaunchAllGrows(u, b, roomId, launches);
    GrowthKept(u, LaunchAll(u, b, roomId, launches).value, b, OpeningEntries(b, roomId, lockId, launches));
    KeptTwice(t, u, StartBranch(t, b, roomId, lockId, launches).value);
  }

  lemma SettleAloneKept(t: Tables, e: string, v: Verdict)
    requires SettleAlone(t, e, v).Ok?
    ensures Kept(t, SettleAlone(t, e, v).value)
  {
    SettleKept(t, e, v);
  }

  lemma AdvanceKept(t: Tables, runId: string, state: HarnessState, lease: int, user: string, expected: Option<HarnessState>)
    requires Advance(t, runId, state, lease, user, expected).Ok?
    ensures Kept(t, Advance(t, runId, state, lease, user, expected).value)
  {
  }

  lemma SpendKept(t: Tables, runId: string, expected: int)
    ensures Kept(t, SpendAttempt(t, runId, expected))
  {
  }

  lemma PostKept(t: Tables, messageId: string, m: Message)
    requires PostMessage(t, messageId, m).Ok?
    ensures Kept(t, PostMessage(t, messageId, m).value)
  {
  }

  lemma MoveKept(t: Tables, e: string, expected: ExecutionStatus, target: ExecutionStatus)
    requires Move(t, e, expected, target).Ok? && !Ended(expected)
    ensures Kept(t, Move(t, e, expected, target).value)
  {
  }

  lemma OpenTaskKept(t: Tables, k: string, roomId: string)
    requires OpenTask(t, k, roomId).Ok?
    ensures Kept(t, OpenTask(t, k, roomId).value)
  {
  }

  lemma KeptAlways(t: Tables)
    ensures Kept(t, t)
  {
  }

  lemma StartKept(t: Tables, a: Action)
    requires Permitted(t, a) && Apply(t, a).Ok?
    requires a.BranchStart? || a.EventStart? || a.Invocation? || a.TaskStart? || a.TaskOpening?
    ensures Kept(t, Apply(t, a).value)
  {
    hide Kept;
    match a
    case BranchStart(b, roomId, lockId, launches) => StartBranchKept(t, b, roomId, lockId, launches);
    case EventStart(l, enveloped, branchId, status, legacyId, kind) =>
      StartWithEventKept(t, l, enveloped, branchId, status, legacyId, kind);
    case Invocation(roomId, l, legacyId, kind) => InvokeKept(t, roomId, l, legacyId, kind);
    case TaskStart(k, expected, l, legacyId) => StartTaskKept(t, k, expected, l, legacyId);
    case TaskOpening(k, roomId) => OpenTaskKept(t, k, roomId);
  }

  /**
   One step of any client leaves every settled run, ended execution, output, finished branch and terminal task
   as it was, and frees a room's turn only by ending the branch that held it.
   */
  lemma StepKept(t: Tables, a: Action)
    requires Inv(t) && Permitted(t, a)
    ensures Kept(t, After(t, a))
  {
    hide Kept;
    if Apply(t, a).Err? {
      KeptAlways(t);
    } else {
      match a
      case TaskTransition(k, expected, target) => TransitionKept(t, k, expected, target);
      case StatusUpdate(e, status, expected) => MoveKept(t, e, expected, status);
      case Completion(answer, notes, expected, message, now) => CompleteKept(t, answer, notes, expected, message, now);
      case Termination(x, status, notes, settlement, decided, lease, now) =>
        TerminalizeKept(t, x, status, notes, settlement, decided, lease, now);
      case LoneSettlement(e, v) => SettleAloneKept(t, e, v);
      case LeaseAdvance(runId, state, lease, user, expected) => AdvanceKept(t, runId, state, lease, user, expected);
      case AttemptSpend(runId, expected) => SpendKept(t, runId, expected);
      case Posting(messageId, m) => PostKept(t, messageId, m);
      case _ => StartKept(t, a);
    }
  }

  /** So does every continuation of a run. */
  lemma {:induction false} EveryRunKept(actions: seq<Action>, n: nat)
    requires Lawful(actions) && n <= |actions|
    ensures Kept(Run(actions[..n]), Run(actions))
  {
    if n == |actions| {
      assert actions[..n] == actions;
      KeptAlways(Run(actions));
    } else {
      var shorter := actions[..|actions| - 1];
      EveryRunKept(shorter, n);
      assert shorter[..n] == actions[..n];
      LastStepKept(actions);
      KeptTwice(Run(actions[..n]), Run(shorter), Run(actions));
    }
  }

  lemma LastStepKept(actions: seq<Action>)
    requires Lawful(actions) && actions != []
    ensures Kept(Run(actions[..|actions| - 1]), Run(actions))
  {
    var shorter := actions[..|actions| - 1];
    EveryRunIsSound(shorter);
    StepKept(Run(shorter), actions[|actions| - 1]);
  }

  // ---- The turn lock

  predicate HeldFor(t: Tables, roomId: string, b: string) {
    roomId in t.locks && t.locks[roomId].branchId == b
  }

  /** From the moment a branch holds a room's turn until that branch finishes, the turn is its. */
  lemma TurnStays(actions: seq<Action>, n: nat, m: nat, roomId: string, b: string)
    requires Lawful(actions) && n <= m <= |actions| && HeldFor(Run(actions[..n]), roomId, b)
    requires b in Run(actions).branches && !Finished(Run(actions).branches[b].status)
    ensures HeldFor(Run(actions[..m]), roomId, b) && Inv(Run(actions[..m]))
  {
    hide Inv, Run, Lawful;
    LawfulPrefix(actions, m);
    EveryRunKept(actions, m);
    assert actions[..m][..n] == actions[..n];
    EveryRunKept(actions[..m], n);
    EveryRunIsSound(actions[..m]);
  }

  lemma {:induction false} LawfulPrefix(actions: seq<Action>, m: nat)
    requires Lawful(actions) && m <= |actions|
    ensures Lawful(actions[..m])
  {
    if m == |actions| {
      assert actions[..m] == actions;
    } else {
      LawfulPrefix(actions[..|actions| - 1], m);
      assert actions[..|actions| - 1][..m] == actions[..m];
    }
  }

  /** Messages and branches are only ever added, and among those added is no human message and no managed branch of the room. */
  ghost predicate Excludes(t: Tables, u: Tables, roomId: string) {
    && (forall id <- t.messages :: id in u.messages && u.messages[id] == t.messages[id])
    && (forall id <- u.messages :: id in t.messages || !(u.messages[id].human && u.messages[id].roomId == roomId))
    && (forall x <- t.branches :: x in u.branches && u.branches[x] == t.branches[x].(status := u.branches[x].status))
    && (forall x <- u.branches :: x in t.branches || !(u.branches[x].managed && u.branches[x].roomId == roomId))
  }

  lemma ExcludesOn(t: Tables, u: Tables, w: Tables, roomId: string)
    requires Excludes(t, u, roomId) && Excludes(u, w, roomId)
    ensures Excludes(t, w, roomId)
  {
  }

  lemma PostExcludes(t: Tables, messageId: string, m: Message, roomId: string)
    requires PostMessage(t, messageId, m).Ok? && roomId in t.locks
    ensures Excludes(t, PostMessage(t, messageId, m).value, roomId)
  {
  }

  lemma LaunchTouchesNone(t: Tables, b: string, roomId: string, l: Launch)
    requires LaunchIn(t, b, roomId, l).Ok?
    ensures var u := LaunchIn(t, b, roomId, l).value;
            u.messages == t.messages && u.branches == t.branches && u.locks == t.locks
  {
  }

  lemma {:induction false} LaunchesTouchNone(t: Tables, b: string, roomId: string, launches: seq<Launch>)
    requires LaunchAll(t, b, roomId, launches).Ok?
    ensures var u := LaunchAll(t, b, roomId, launches).value;
            u.messages == t.messages && u.branches == t.branches && u.locks == t.locks
  {
    if launches != [] {
      var n := |launches| - 1;
      LaunchesTouchNone(t, b, roomId, launches[..n]);
      LaunchTouchesNone(LaunchAll(t, b, roomId, launches[..n]).value, b, roomId, launches[n]);
    }
  }

  lemma BranchExcludes(t: Tables, b: string, room: string, lockId: Option<string>, launches: seq<Launch>, roomId: string)
    requires StartBranch(t, b, room, lockId, launches).Ok? && roomId in t.locks
    ensures Excludes(t, StartBranch(t, b, room, lockId, launches).value, roomId)
  {
    StartBranchMeans(t, b, room, lockId, launches);
    LaunchesTouchNone(Opened(t, b, room, lockId), b, room, launches);
    OpenedExcludes(t, b, room, lockId, roomId);
    hide StartBranch, LaunchAll, OpeningEntries, ValidParty, Excludes, Opened;
    SameExcludes(t, Opened(t, b, room, lockId), StartBranch(t, b, room, lockId, launches).value, roomId);
  }

  lemma OpenedExcludes(t: Tables, b: string, room: string, lockId: Option<string>, roomId: string)
    requires b !in t.branches && room != roomId
    ensures Excludes(t, Opened(t, b, room, lockId), roomId)
  {
    var u := Opened(t, b, room, lockId);
    assert u.branches == t.branches[b := Branch(room, true, BranchStatus.Running)] && u.messages == t.messages;
    hide Opened;
  }

  lemma SameExcludes(t: Tables, u: Tables, w: Tables, roomId: string)
    requires Excludes(t, u, roomId) && w.messages == u.messages && w.branches == u.branches
    ensures Excludes(t, w, roomId)
  {
  }

  lemma LegacyExcludes(t: Tables, room: string, newId: string, roomId: string)
    requires LegacyBranch(t, room, newId).Ok?
    ensures Excludes(t, LegacyBranch(t, room, newId).value.0, roomId)
  {
    var u := LegacyBranch(t, room, newId).value.0;
    if room !in t.legacy {
      assert u.branches == t.branches[newId := Branch(room, false, BranchStatus.Running)];
    }
    hide LegacyBranch;
  }

  lemma StartInTouchesNone(t: Tables, l: Launch, enveloped: bool, b: string, status: ExecutionStatus)
    requires l.sessionId in t.sessions && StartIn(t, l, enveloped, b, status).Ok?
    ensures var u := StartIn(t, l, enveloped, b, status).value;
            u.messages == t.messages && u.branches == t.branches && u.locks == t.locks
  {
  }

  lemma EventExcludes(t: Tables, l: Launch, enveloped: bool, branchId: string, status: ExecutionStatus, legacyId: string,
                      kind: string, roomId: string)
    requires StartWithEvent(t, l, enveloped, branchId, status, legacyId, kind).Ok?
    ensures Excludes(t, StartWithEvent(t, l, enveloped, branchId, status, legacyId, kind).value, roomId)
  {
    StartWithEventMeans(t, l, enveloped, branchId, status, legacyId, kind);
    var room := t.sessions[l.sessionId].roomId;
    var (t1, b) := if branchId == "" then LegacyBranch(t, room, legacyId).value else (t, branchId);
    if branchId == "" {
      LegacyExcludes(t, room, legacyId, roomId);
    }
    StartInTouchesNone(t1, l, enveloped, b, status);
    hide StartWithEvent, StartIn, LegacyBranch, Excludes;
    if branchId != "" {
      ExcludesSelf(t, roomId);
    }
    SameExcludes(t, t1, StartWithEvent(t, l, enveloped, branchId, status, legacyId, kind).value, roomId);
  }

  lemma InvokeExcludes(t: Tables, room: string, l: Launch, legacyId: string, kind: string, roomId: string)
    requires Invoke(t, room, l, legacyId, kind).Ok?
    ensures Excludes(t, Invoke(t, room, l, legacyId, kind).value, roomId)
  {
    var (t1, b) := LegacyBranch(t, room, legacyId).value;
    LegacyExcludes(t, room, legacyId, roomId);
    LaunchTouchesNone(t1, b, room, l);
    hide LaunchIn, LegacyBranch;
  }

  lemma TaskExcludes(t: Tables, k: string, expected: A.TaskState, l: Launch, legacyId: string, roomId: string)
    requires StartTask(t, k, expected, l, legacyId).Ok?
    ensures Excludes(t, StartTask(t, k, expected, l, legacyId).value, roomId)
  {
    StartTaskMeans(t, k, expected, l, legacyId);
    var t1 := TransitionTask(t, k, expected, A.Working).value;
    var room := t1.tasks[k].roomId;
    LegacyExcludes(t1, room, legacyId, roomId);
    var (t2, b) := LegacyBranch(t1, room, legacyId).value;
    LaunchTouchesNone(t2, b, room, l.(taskId := Some(k)));
    hide LaunchIn, StartTask, LegacyBranch;
  }

  lemma EndExcludes(t: Tables, s: Tables, e: string, v: Verdict, b: string, roomId: string, room: string)
    requires s == t.(executions := s.executions, outputs := s.outputs, sessions := s.sessions) && Settle(s, e, v).Ok?
    ensures var f := FinishBranch(Settle(s, e, v).value.tables, b, room).tables;
            Excludes(t, f, roomId) && f.messages == t.messages
  {
    SettleMeans(s, e, v);
    FinishMeans(Settle(s, e, v).value.tables, b, room);
    hide Settle, FinishBranch;
  }

  lemma CompletionExcludes(t: Tables, a: Answer, notes: seq<string>, expected: ExecutionStatus,
                           message: Option<(string, Message)>, now: int, roomId: string)
    requires Complete(t, a, notes, expected, message, now).Ok?
    requires roomId in Complete(t, a, notes, expected, message, now).value.locks
    ensures Excludes(t, Complete(t, a, notes, expected, message, now).value, roomId)
  {
    CompleteMeans(t, a, notes, expected, message, now);
    var v := Verdict(EndTurn, a.agentId, now, None);
    AnsweredFrame(t, a);
    EndExcludes(t, Answered(t, a), a.executionId, v, a.branchId, roomId, a.roomId);
    var w := Settle(Answered(t, a), a.executionId, v).value;
    var f := FinishBranch(w.tables, a.branchId, a.roomId);
    var done := Append(f.tables, Notes(a.roomId, notes) + w.entries + f.entries);
    hide Excludes, Settle, FinishBranch, Answered, Complete, Notes;
    AppendExcludes(t, f.tables, Notes(a.roomId, notes) + w.entries + f.entries, roomId);
    if message.Some? {
      PostExcludes(done, message.value.0, message.value.1, roomId);
      ExcludesOn(t, done, PostMessage(done, message.value.0, message.value.1).value, roomId);
    }
  }

  lemma TerminationExcludes(t: Tables, x: Snapshot, status: ExecutionStatus, notes: seq<string>,
                            settlement: Option<RunSettlement>, decidedBy: string, lease: Option<int>, now: int, roomId: string)
    requires Terminalize(t, x, status, notes, settlement, decidedBy, lease, now).Ok?
    ensures Excludes(t, Terminalize(t, x, status, notes, settlement, decidedBy, lease, now).value, roomId)
  {
    TerminalizeMeans(t, x, status, notes, settlement, decidedBy, lease, now);
    var v := Verdict(settlement.GetOr(DefaultSettlement(status)), if decidedBy != "" then decidedBy else x.agentId, now,
                     lease);
    TerminatedFrame(t, x, status);
    var room := t.sessions[x.sessionId].roomId;
    var s := Terminated(t, x, status);
    EndExcludes(t, s, x.executionId, v, x.branchId, roomId, room);
    var w := Settle(s, x.executionId, v).value;
    var f := FinishBranch(w.tables, x.branchId, room);
    hide Excludes, Settle, FinishBranch, Terminated, Terminalize, Notes;
    AppendExcludes(t, f.tables, Notes(room, notes) + w.entries + f.entries, roomId);
  }

  lemma SettlingExcludes(t: Tables, e: string, v: Verdict, roomId: string)
    requires SettleAlone(t, e, v).Ok?
    ensures Excludes(t, SettleAlone(t, e, v).value, roomId)
  {
    SettleMeans(t, e, v);
    hide Settle;
  }

  lemma QuietStepExcludes(t: Tables, a: Action, roomId: string)
    requires Apply(t, a).Ok?
    requires a.LeaseAdvance? || a.AttemptSpend? || a.TaskTransition? || a.StatusUpdate? || a.TaskOpening?
    ensures Excludes(t, Apply(t, a).value, roomId)
  {
  }

  /** A step that leaves the turn where it was lets nothing past it. */
  lemma StepExcludes(t: Tables, a: Action, roomId: string)
    requires Apply(t, a).Ok? && roomId in t.locks && roomId in Apply(t, a).value.locks
    ensures Excludes(t, Apply(t, a).value, roomId)
  {
    hide Excludes, Complete, Terminalize, StartBranch, StartWithEvent, Invoke, StartTask, SettleAlone, PostMessage;
    match a
    case Completion(answer, notes, expected, message, now) =>
      CompletionExcludes(t, answer, notes, expected, message, now, roomId);
    case Termination(x, status, notes, settlement, decided, lease, now) =>
      TerminationExcludes(t, x, status, notes, settlement, decided, lease, now, roomId);
    case LoneSettlement(e, v) => SettlingExcludes(t, e, v, roomId);
    case Posting(messageId, m) => PostExcludes(t, messageId, m, roomId);
    case BranchStart(b, room, lockId, launches) => BranchExcludes(t, b, room, lockId, launches, roomId);
    case EventStart(l, enveloped, b, status, legacyId, kind) =>
      EventExcludes(t, l, enveloped, b, status, legacyId, kind, roomId);
    case Invocation(room, l, legacyId, kind) => InvokeExcludes(t, room, l, legacyId, kind, roomId);
    case TaskStart(k, expected, l, legacyId) => TaskExcludes(t, k, expected, l, legacyId, roomId);
    case _ => QuietStepExcludes(t, a, roomId);
  }

  lemma AppendExcludes(t: Tables, u: Tables, entries: seq<Entry>, roomId: string)
    requires Excludes(t, u, roomId)
    ensures Excludes(t, Append(u, entries), roomId)
  {
  }

  /** Starting in this room, another branch or an execution of another branch. */
  predicate StartsBeside(t: Tables, a: Action, roomId: string, b: string) {
    || (a.BranchStart? && a.roomId == roomId)
    || (a.EventStart? && a.launch.sessionId in t.sessions && t.sessions[a.launch.sessionId].roomId == roomId && a.branchId != b)
  }

  /** Step k does not start anything beside b, or it changes nothing. */
  predicate Refused(actions: seq<Action>, k: nat, roomId: string, b: string)
    requires k < |actions|
  {
    StartsBeside(Run(actions[..k]), actions[k], roomId, b) ==> Run(actions[..k + 1]) == Run(actions[..k])
  }

  /**
   From the moment a branch holds a room's turn until that branch finishes: no human message and no managed branch
   joins the room, and every start of another branch, or of an execution of another branch, changes nothing.
   */
  lemma {:induction false} LockExcludes(actions: seq<Action>, n: nat, m: nat, roomId: string, b: string)
    requires Lawful(actions) && n <= m <= |actions| && HeldFor(Run(actions[..n]), roomId, b)
    requires b in Run(actions).branches && !Finished(Run(actions).branches[b].status)
    ensures Excludes(Run(actions[..n]), Run(actions[..m]), roomId)
    ensures forall k | n <= k < m :: Refused(actions, k, roomId, b)
    decreases m
  {
    hide Run, Inv, Lawful, Excludes, Refused;
    if n < m {
      LockExcludes(actions, n, m - 1, roomId, b);
      TurnStays(actions, n, m - 1, roomId, b);
      TurnStays(actions, n, m, roomId, b);
      OneStepPasses(actions, m - 1, roomId, b);
      ExcludesOn(Run(actions[..n]), Run(actions[..m - 1]), Run(actions[..m]), roomId);
    } else {
      ExcludesSelf(Run(actions[..n]), roomId);
    }
  }

  lemma ExcludesSelf(t: Tables, roomId: string)
    ensures Excludes(t, t, roomId)
  {
  }

  lemma OneStepPasses(actions: seq<Action>, k: nat, roomId: string, b: string)
    requires k < |actions| && HeldFor(Run(actions[..k]), roomId, b) && HeldFor(Run(actions[..k + 1]), roomId, b)
    ensures Excludes(Run(actions[..k]), Run(actions[..k + 1]), roomId) && Refused(actions, k, roomId, b)
  {
    assert actions[..k + 1][..k] == actions[..k];
    assert Run(actions[..k + 1]) == After(Run(actions[..k]), actions[k]);
    hide After, Excludes, Run, StartsBeside;
    NothingPasses(Run(actions[..k]), actions[k], roomId, b);
  }

  lemma NothingPasses(t: Tables, a: Action, roomId: string, b: string)
    requires HeldFor(t, roomId, b) && HeldFor(After(t, a), roomId, b)
    ensures Excludes(t, After(t, a), roomId) && (StartsBeside(t, a, roomId, b) ==> After(t, a) == t)
  {
    if StartsBeside(t, a, roomId, b) {
      BesideIsRefused(t, a, roomId, b);
    }
    hide StartsBeside;
    if Apply(t, a).Ok? {
      StepExcludes(t, a, roomId);
      hide Apply;
    }
  }

  lemma BesideIsRefused(t: Tables, a: Action, roomId: string, b: string)
    requires HeldFor(t, roomId, b) && StartsBeside(t, a, roomId, b)
    ensures After(t, a) == t
  {
  }

  /** The step that ends the last execution of the branch holding the turn frees the turn in the same commit. */
  lemma FinishingFreesTheTurn(t: Tables, b: string, roomId: string)
    requires LocksLive(t.branches, t.locks) && Due(t, b)
    ensures var u := FinishBranch(t, b, roomId).tables;
            && b in u.branches && u.branches[b].status == Outcome(t.executions, b)
            && (forall r <- u.locks :: u.locks[r].branchId != b)
            && (forall r <- t.locks :: t.locks[r].branchId != b ==> r in u.locks && u.locks[r] == t.locks[r])
  {
    FinishMeans(t, b, roomId);
    LocksAfterClosing(t.branches, t.locks, b, Outcome(t.executions, b));
    var u := FinishBranch(t, b, roomId).tables;
    forall r | r in u.locks ensures u.locks[r].branchId != b {
      assert u.branches[b].status != BranchStatus.Running;
    }
  }

  // ---- Writers that lost the race

  /** A sweep that read a lease which has since been renewed changes nothing at all. */
  lemma StaleSweepChangesNothing(t: Tables, x: Snapshot, status: ExecutionStatus, notes: seq<string>,
                                 settlement: Option<RunSettlement>, decidedBy: string, lease: int, now: int)
    requires RunOpen(t, x.executionId) && t.runs[x.executionId].leaseExpiresAt != lease
    ensures After(t, Termination(x, status, notes, settlement, decidedBy, Some(lease), now)) == t
    ensures forall v: Verdict :: v.expectedLease == Some(lease) ==> After(t, LoneSettlement(x.executionId, v)) == t
  {
    if Terminalize(t, x, status, notes, settlement, decidedBy, Some(lease), now).Ok? {
      TerminalizeMeans(t, x, status, notes, settlement, decidedBy, Some(lease), now);
    }
  }

  /** The room's turn is held, and not by a branch that this answer finishes. */
  predicate StaysLocked(t: Tables, a: Answer, roomId: string)
    requires a.executionId in t.executions
  {
    && roomId in t.locks
    && !(t.locks[roomId].branchId == a.branchId && AllEnded(Answered(t, a).executions, a.branchId))
  }

  /** Its run was not settled under the turn, nobody else moved its execution, and its output id is new. */
  predicate Writable(t: Tables, a: Answer, expected: ExecutionStatus) {
    && a.executionId in t.executions && t.executions[a.executionId].status == expected
    && (a.executionId in t.runs ==> RunOpen(t, a.executionId))
    && (forall e <- t.outputs :: t.outputs[e].outputId != a.outputId)
  }

  /** All that complete_execution asks of a reachable state. */
  predicate MayComplete(t: Tables, a: Answer, expected: ExecutionStatus, message: Option<(string, Message)>) {
    && Writable(t, a, expected)
    && (message.Some? ==> && message.value.0 !in t.messages
                          && !(message.value.1.human && StaysLocked(t, a, message.value.1.roomId)))
  }

  lemma AnsweredSettles(t: Tables, a: Answer, v: Verdict)
    requires Inv(t) && a.executionId in t.executions && v.settlement.EndTurn? && v.expectedLease.None?
    ensures Settle(Answered(t, a), a.executionId, v).Ok?
  {
    var u := Answered(t, a);
    if RunOpen(u, a.executionId) {
      SettleRaisesIff(u, a.executionId, v);
    }
  }

  /** The tables once the answer is written, before a message is posted. */
  function WithAnswer(t: Tables, a: Answer, notes: seq<string>, now: int): Tables
    requires a.executionId in t.executions && Settle(Answered(t, a), a.executionId, Verdict(EndTurn, a.agentId, now, None)).Ok?
  {
    var w := Settle(Answered(t, a), a.executionId, Verdict(EndTurn, a.agentId, now, None)).value;
    var f := FinishBranch(w.tables, a.branchId, a.roomId);
    Append(f.tables, Notes(a.roomId, notes) + w.entries + f.entries)
  }

  lemma WritableCompletes(t: Tables, a: Answer, notes: seq<string>, expected: ExecutionStatus,
                          message: Option<(string, Message)>, now: int)
    requires Inv(t) && !Ended(expected) && Writable(t, a, expected)
    ensures Settle(Answered(t, a), a.executionId, Verdict(EndTurn, a.agentId, now, None)).Ok?
    ensures Complete(t, a, notes, expected, message, now)
            == if message.None? then Ok(WithAnswer(t, a, notes, now))
               else PostMessage(WithAnswer(t, a, notes, now), message.value.0, message.value.1)
  {
    AnsweredSettles(t, a, Verdict(EndTurn, a.agentId, now, None));
    assert InsertOutput(t, a).Ok?;
    assert Move(InsertOutput(t, a).value, a.executionId, expected, ExecutionStatus.Completed).Ok?;
  }

  lemma AnsweredFrame(t: Tables, a: Answer)
    requires a.executionId in t.executions
    ensures var u := Answered(t, a);
            && u == t.(executions := u.executions, outputs := u.outputs, sessions := u.sessions)
            && u.outputs == t.outputs[a.executionId := Output(a.outputId, a.content)]
            && u.executions == t.executions[a.executionId := t.executions[a.executionId].(status := ExecutionStatus.Completed)]
  {
  }

  /** The rows a settlement and then a finish leave of those before. */
  lemma SettleThenFinish(u: Tables, e: string, v: Verdict, b: string, roomId: string)
    requires Settle(u, e, v).Ok?
    ensures var w := Settle(u, e, v).value.tables;
            var f := FinishBranch(w, b, roomId).tables;
            && f.executions == u.executions && f.outputs == u.outputs && f.messages == u.messages
            && f.sessions == u.sessions
            && f.runs == (if RunOpen(u, e) then u.runs[e := SettledRun(u.runs[e], v)] else u.runs)
            && w.executions == u.executions && w.branches == u.branches && w.locks == u.locks
            && f.tasks == w.tasks && f.taskMessages == w.taskMessages
  {
    SettleMeans(u, e, v);
    FinishMeans(Settle(u, e, v).value.tables, b, roomId);
  }

  lemma LocksAfterAnswer(t: Tables, w: Tables, a: Answer, roomId: string)
    requires LocksLive(t.branches, t.locks) && a.executionId in t.executions && OwnBranch(t, a.executionId, a.branchId)
    requires w.executions == Answered(t, a).executions && w.branches == t.branches && w.locks == t.locks
    ensures roomId in FinishBranch(w, a.branchId, a.roomId).tables.locks <==> StaysLocked(t, a, roomId)
  {
    AnsweredFrame(t, a);
    FinishMeans(w, a.branchId, a.roomId);
    assert OfBranch(w.executions, a.branchId, a.executionId);
  }

  lemma WithAnswerMeans(t: Tables, a: Answer, notes: seq<string>, now: int, roomId: string)
    requires Inv(t) && a.executionId in t.executions && OwnBranch(t, a.executionId, a.branchId)
    requires Settle(Answered(t, a), a.executionId, Verdict(EndTurn, a.agentId, now, None)).Ok?
    ensures var done := WithAnswer(t, a, notes, now);
            done.messages == t.messages && (roomId in done.locks <==> StaysLocked(t, a, roomId))
  {
    var v := Verdict(EndTurn, a.agentId, now, None);
    var u := Answered(t, a);
    AnsweredFrame(t, a);
    SettleThenFinish(u, a.executionId, v, a.branchId, a.roomId);
    LocksAfterAnswer(t, Settle(u, a.executionId, v).value.tables, a, roomId);
  }

  /** A turn in flight completes exactly when its run was not settled under it and nobody else moved its execution. */
  lemma CompleteSucceedsIff(t: Tables, a: Answer, notes: seq<string>, expected: ExecutionStatus,
                            message: Option<(string, Message)>, now: int)
    requires Inv(t) && !Ended(expected) && OwnBranch(t, a.executionId, a.branchId)
    ensures Complete(t, a, notes, expected, message, now).Ok? <==> MayComplete(t, a, expected, message)
  {
    if Writable(t, a, expected) {
      WritableCompletes(t, a, notes, expected, message, now);
      if message.Some? {
        WithAnswerMeans(t, a, notes, now, message.value.1.roomId);
      }
    } else if Complete(t, a, notes, expected, message, now).Ok? {
      CompleteMeans(t, a, notes, expected, message, now);
    }
  }

  /** The output, execution, session and envelope of a completed turn. */
  ghost predicate JointRows(t: Tables, u: Tables, a: Answer, now: int) {
    var e := a.executionId;
    && e in u.executions && u.executions[e].status.Completed?
    && e !in t.outputs && u.outputs == t.outputs[e := Output(a.outputId, a.content)]
    && (a.sessionId in t.sessions ==> a.sessionId in u.sessions && u.sessions[a.sessionId].status.Completed?)
    && (e in t.runs ==> e in u.runs && u.runs[e] == SettledRun(t.runs[e], Verdict(EndTurn, a.agentId, now, None)))
  }

  /** The task an execution still drove has ended as this settlement and answer end it. */
  ghost predicate TaskDone(t: Tables, u: Tables, e: string, settlement: RunSettlement, answer: Option<string>) {
    RunOpen(t, e) && Unsettled(t, e) ==>
      var k := TaskFor(t, e).value;
      k in u.tasks && Ends(t.tasks[k], Conversation(t, k), settlement, answer, u.tasks[k], Conversation(u, k))
  }

  /** The rows of a completed turn: output, execution, session, envelope and task. */
  ghost predicate Joint(t: Tables, u: Tables, a: Answer, now: int) {
    JointRows(t, u, a, now) && TaskDone(t, u, a.executionId, EndTurn, Some(a.content))
  }

  /** The task of an execution whose row was just written, once its run is settled and its branch looked at. */
  lemma TaskAfterEnding(t: Tables, s: Tables, e: string, v: Verdict, b: string, roomId: string)
    requires s.tasks == t.tasks && s.taskMessages == t.taskMessages && TaskFor(s, e) == TaskFor(t, e)
    requires RunOpen(s, e) && Unsettled(t, e) && Settle(s, e, v).Ok?
    ensures var k := TaskFor(t, e).value;
            var f := FinishBranch(Settle(s, e, v).value.tables, b, roomId).tables;
            && k in f.tasks
            && Ends(t.tasks[k], Conversation(t, k), v.settlement, AnswerTo(s, e, v.settlement), f.tasks[k], Conversation(f, k))
  {
    JointSettlement(s, e, v);
    SettleThenFinish(s, e, v, b, roomId);
    hide Settle, FinishBranch, Ends, Reports;
  }

  lemma SameTask(t: Tables, s: Tables, e: string)
    requires s.tasks == t.tasks && (e in s.executions <==> e in t.executions)
    requires e in t.executions ==> s.executions[e].taskId == t.executions[e].taskId
    ensures TaskFor(s, e) == TaskFor(t, e)
  {
  }

  lemma AnsweredSession(t: Tables, a: Answer)
    requires a.executionId in t.executions && a.sessionId in t.sessions
    ensures var u := Answered(t, a);
            a.sessionId in u.sessions && u.sessions[a.sessionId].status.Completed?
  {
  }

  lemma AnswerRows(t: Tables, a: Answer, notes: seq<string>, now: int)
    requires a.executionId in t.executions && a.executionId !in t.outputs
    requires a.executionId in t.runs ==> RunOpen(t, a.executionId)
    requires Settle(Answered(t, a), a.executionId, Verdict(EndTurn, a.agentId, now, None)).Ok?
    ensures JointRows(t, WithAnswer(t, a, notes, now), a, now)
  {
    var s := Answered(t, a);
    AnsweredFrame(t, a);
    if a.sessionId in t.sessions {
      AnsweredSession(t, a);
    }
    SettleThenFinish(s, a.executionId, Verdict(EndTurn, a.agentId, now, None), a.branchId, a.roomId);
    hide Answered, Settle, FinishBranch;
  }

  lemma AnswerTask(t: Tables, a: Answer, notes: seq<string>, now: int)
    requires a.executionId in t.executions
    requires Settle(Answered(t, a), a.executionId, Verdict(EndTurn, a.agentId, now, None)).Ok?
    ensures TaskDone(t, WithAnswer(t, a, notes, now), a.executionId, EndTurn, Some(a.content))
  {
    var e := a.executionId;
    var s := Answered(t, a);
    AnsweredFrame(t, a);
    SameTask(t, s, e);
    hide Answered, Settle, FinishBranch, Unsettled;
    if RunOpen(t, e) && Unsettled(t, e) {
      TaskAfterEnding(t, s, e, Verdict(EndTurn, a.agentId, now, None), a.branchId, a.roomId);
    }
  }

  lemma AnswerIsJoint(t: Tables, a: Answer, notes: seq<string>, now: int)
    requires a.executionId in t.executions && a.executionId !in t.outputs
    requires a.executionId in t.runs ==> RunOpen(t, a.executionId)
    requires Settle(Answered(t, a), a.executionId, Verdict(EndTurn, a.agentId, now, None)).Ok?
    ensures Joint(t, WithAnswer(t, a, notes, now), a, now)
  {
    AnswerRows(t, a, notes, now);
    AnswerTask(t, a, notes, now);
  }

  /** What settling an answered run logs: the run's event, then its task's moves. */
  function SettlementEntries(t: Tables, e: string, v: Verdict): seq<Entry> {
    if !RunOpen(t, e) then []
    else
      SettledEntries(t.runs[e], e, v)
      + if !Unsettled(t, e) then []
        else
          var k := TaskFor(t, e).value;
          (if t.tasks[k].state.Working? then [] else [Entry(t.tasks[k].roomId, TaskMoved(k, A.Working))])
          + [Entry(t.tasks[k].roomId, TaskMoved(k, A.Completed))]
  }

  /** What finishing a branch logs: its terminal event, then the release of the turn it held. */
  function ClosingEntries(t: Tables, after: map<string, Branch>, b: string, roomId: string): seq<Entry> {
    if b !in t.branches || b !in after || after[b] == t.branches[b] then []
    else
      var status := after[b].status;
      [Entry(roomId, BranchFinished(b, status))]
      + if HoldsTurn(t, b) then [Entry(roomId, LockReleased(t.locks[t.branches[b].roomId].lockId, b, status))] else []
  }

  function PostedEntries(message: Option<(string, Message)>): seq<Entry> {
    if message.None? then [] else [Entry(message.value.1.roomId, MessagePosted(message.value.0))]
  }

  /** All that a completion logs, in order: the caller's events, the settlement's, the branch's, the message. */
  ghost predicate LogReads(t: Tables, u: Tables, a: Answer, notes: seq<string>, message: Option<(string, Message)>,
                           now: int)
  {
    && u.log == t.log + Notes(a.roomId, notes) + SettlementEntries(t, a.executionId, Verdict(EndTurn, a.agentId, now, None))
                + ClosingEntries(t, u.branches, a.branchId, a.roomId) + PostedEntries(message)
    && u.messages == if message.None? then t.messages else t.messages[message.value.0 := message.value.1]
  }

  lemma SettlingLogs(t: Tables, a: Answer, v: Verdict)
    requires a.executionId in t.executions && v.settlement.EndTurn? && Settle(Answered(t, a), a.executionId, v).Ok?
    ensures Settle(Answered(t, a), a.executionId, v).value.entries == SettlementEntries(t, a.executionId, v)
  {
    var e, s := a.executionId, Answered(t, a);
    AnsweredFrame(t, a);
    if RunOpen(t, e) {
      var t1 := s.(runs := s.runs[e := SettledRun(s.runs[e], v)]);
      assert TaskFor(t1, e) == TaskFor(t, e);
      if Unsettled(t, e) {
        SettleAnswered(t1, e);
      }
      hide SettleTask, Answered, SettledEntries, SettledRun;
    }
  }

  lemma FinishingLogs(t: Tables, b: string, roomId: string)
    ensures var f := FinishBranch(t, b, roomId);
            f.entries == ClosingEntries(t, f.tables.branches, b, roomId)
  {
    if Due(t, b) {
      FinishMeans(t, b, roomId);
      assert Finished(Outcome(t.executions, b));
      hide Outcome, Due;
    }
  }

  lemma AnswerLogReads(t: Tables, a: Answer, notes: seq<string>, now: int)
    requires a.executionId in t.executions
    requires Settle(Answered(t, a), a.executionId, Verdict(EndTurn, a.agentId, now, None)).Ok?
    ensures LogReads(t, WithAnswer(t, a, notes, now), a, notes, None, now)
  {
    var v := Verdict(EndTurn, a.agentId, now, None);
    var s := Answered(t, a);
    AnsweredFrame(t, a);
    SettlingLogs(t, a, v);
    SettleMeans(s, a.executionId, v);
    var w := Settle(s, a.executionId, v).value;
    FinishMeans(w.tables, a.branchId, a.roomId);
    FinishingLogs(w.tables, a.branchId, a.roomId);
    var f := FinishBranch(w.tables, a.branchId, a.roomId);
    ClosingFrame(t, w.tables, f.tables.branches, a.branchId, a.roomId);
    hide Answered, Settle, FinishBranch, SettlementEntries, ClosingEntries, Closed, Unlocked, Closing;
    LogOfParts(t.log, Notes(a.roomId, notes), w.entries, f.entries);
  }

  lemma ClosingFrame(t: Tables, w: Tables, after: map<string, Branch>, b: string, roomId: string)
    requires w.branches == t.branches && w.locks == t.locks
    ensures ClosingEntries(w, after, b, roomId) == ClosingEntries(t, after, b, roomId)
  {
  }

  lemma LogOfParts(log: seq<Entry>, notes: seq<Entry>, settled: seq<Entry>, closed: seq<Entry>)
    ensures log + (notes + settled + closed) == log + notes + settled + closed + []
  {
  }

  /**
   One commit: the output, COMPLETED, an envelope settled END_TURN, and, if the execution still drives a task
   that has not ended, that task COMPLETED with the output's text as the delegate's last word. The log then reads
   the caller's events, the settlement's, the branch's and the agent's message, and nothing else.
   */
  lemma CompletionIsJoint(t: Tables, a: Answer, notes: seq<string>, expected: ExecutionStatus,
                          message: Option<(string, Message)>, now: int)
    requires Complete(t, a, notes, expected, message, now).Ok?
    ensures Joint(t, Complete(t, a, notes, expected, message, now).value, a, now)
    ensures LogReads(t, Complete(t, a, notes, expected, message, now).value, a, notes, message, now)
  {
    CompleteMeans(t, a, notes, expected, message, now);
    AnswerIsJoint(t, a, notes, now);
    AnswerLogReads(t, a, notes, now);
    hide LogReads, Joint, Complete;
    PostedReads(t, a, notes, message, now, WithAnswer(t, a, notes, now));
    PostedIsJoint(t, a, message, now, WithAnswer(t, a, notes, now));
  }

  lemma PostedIsJoint(t: Tables, a: Answer, message: Option<(string, Message)>, now: int, u: Tables)
    requires Joint(t, u, a, now)
    requires message.Some? ==> PostMessage(u, message.value.0, message.value.1).Ok?
    ensures Joint(t, if message.None? then u else PostMessage(u, message.value.0, message.value.1).value, a, now)
  {
    hide Ends;
  }

  lemma PostedReads(t: Tables, a: Answer, notes: seq<string>, message: Option<(string, Message)>, now: int, u: Tables)
    requires LogReads(t, u, a, notes, None, now)
    requires message.Some? ==> PostMessage(u, message.value.0, message.value.1).Ok?
    ensures LogReads(t, if message.None? then u else PostMessage(u, message.value.0, message.value.1).value, a, notes, message,
                     now)
  {
    hide SettlementEntries, ClosingEntries, Notes;
  }

  /** The rows of a turn that ended without an answer. */
  ghost predicate Unanswered(t: Tables, u: Tables, x: Snapshot, status: ExecutionStatus, v: Verdict) {
    var e := x.executionId;
    && e in u.executions && u.executions[e].status == status && u.outputs == t.outputs
    && x.sessionId in u.sessions && u.sessions[x.sessionId].status.Failed?
    && (RunOpen(t, e) ==> e in u.runs && u.runs[e] == SettledRun(t.runs[e], v))
    && TaskDone(t, u, e, v.settlement, None)
  }

  lemma TerminatedFrame(t: Tables, x: Snapshot, status: ExecutionStatus)
    requires x.executionId in t.executions && x.sessionId in t.sessions
    ensures var u := Terminated(t, x, status);
            && u == t.(executions := u.executions, sessions := u.sessions)
            && u.executions == t.executions[x.executionId := t.executions[x.executionId].(status := status)]
            && x.sessionId in u.sessions && u.sessions[x.sessionId].status.Failed?
  {
  }

  /** The tables after an ending without output. */
  function WithoutAnswer(t: Tables, x: Snapshot, status: ExecutionStatus, notes: seq<string>, v: Verdict): Tables
    requires x.executionId in t.executions && x.sessionId in t.sessions
    requires Settle(Terminated(t, x, status), x.executionId, v).Ok?
  {
    var room := t.sessions[x.sessionId].roomId;
    var w := Settle(Terminated(t, x, status), x.executionId, v).value;
    var f := FinishBranch(w.tables, x.branchId, room);
    Append(f.tables, Notes(room, notes) + w.entries + f.entries)
  }

  lemma TerminatedTask(t: Tables, x: Snapshot, status: ExecutionStatus, notes: seq<string>, v: Verdict)
    requires x.executionId in t.executions && x.sessionId in t.sessions && x.executionId !in t.outputs
    requires Settle(Terminated(t, x, status), x.executionId, v).Ok?
    ensures TaskDone(t, WithoutAnswer(t, x, status, notes, v), x.executionId, v.settlement, None)
  {
    var e := x.executionId;
    var s := Terminated(t, x, status);
    TerminatedFrame(t, x, status);
    SameTask(t, s, e);
    hide Terminated, Settle, FinishBranch, Unsettled;
    if RunOpen(t, e) && Unsettled(t, e) {
      TaskAfterEnding(t, s, e, v, x.branchId, t.sessions[x.sessionId].roomId);
    }
  }

  lemma TerminatedRows(t: Tables, x: Snapshot, status: ExecutionStatus, notes: seq<string>, v: Verdict)
    requires x.executionId in t.executions && x.sessionId in t.sessions && x.executionId !in t.outputs
    requires Settle(Terminated(t, x, status), x.executionId, v).Ok?
    ensures Unanswered(t, WithoutAnswer(t, x, status, notes, v), x, status, v)
  {
    TerminatedTask(t, x, status, notes, v);
    TerminatedFrame(t, x, status);
    SettleThenFinish(Terminated(t, x, status), x.executionId, v, x.branchId, t.sessions[x.sessionId].roomId);
    hide Terminated, Settle, FinishBranch, TaskDone;
  }

  /** An execution that ends without an output ends its run and its task in the same commit, and never COMPLETED. */
  lemma TerminationIsJoint(t: Tables, x: Snapshot, status: ExecutionStatus, notes: seq<string>,
                           settlement: Option<RunSettlement>, decidedBy: string, lease: Option<int>, now: int)
    requires Inv(t) && !Ended(x.status)
    requires Terminalize(t, x, status, notes, settlement, decidedBy, lease, now).Ok?
    ensures var v := Verdict(settlement.GetOr(DefaultSettlement(status)),
                             if decidedBy != "" then decidedBy else x.agentId, now, lease);
            Unanswered(t, Terminalize(t, x, status, notes, settlement, decidedBy, lease, now).value, x, status, v)
  {
    TerminalizeMeans(t, x, status, notes, settlement, decidedBy, lease, now);
    var v := Verdict(settlement.GetOr(DefaultSettlement(status)), if decidedBy != "" then decidedBy else x.agentId, now,
                     lease);
    TerminatedRows(t, x, status, notes, v);
  }

  // ---- Opening a branch

  function LaunchedIds(launches: seq<Launch>): (ids: set<string>)
    ensures forall l <- launches :: l.executionId in ids
    ensures forall e <- ids :: exists l <- launches :: l.executionId == e
  {
    if launches == [] then {} else LaunchedIds(launches[..|launches| - 1]) + {launches[|launches| - 1].executionId}
  }

  /** Exactly these executions joined, each PENDING behind an open run. */
  ghost predicate Joined(t: Tables, u: Tables, ids: set<string>) {
    && u.executions.Keys == t.executions.Keys + ids && ids !! t.executions.Keys
    && forall e <- ids :: u.executions[e].status.Pending? && RunOpen(u, e)
  }

  lemma LaunchAddsOne(t: Tables, b: string, roomId: string, l: Launch)
    requires LaunchIn(t, b, roomId, l).Ok?
    ensures var u := LaunchIn(t, b, roomId, l).value;
            && l.executionId !in t.executions && l.executionId !in t.runs
            && u.executions
               == t.executions[l.executionId := Execution(l.sessionId, l.agentId, b, l.taskId, ExecutionStatus.Pending)]
            && RunOpen(u, l.executionId) && u.runs == t.runs[l.executionId := u.runs[l.executionId]]
  {
  }

  lemma JoinedOneMore(t: Tables, u: Tables, w: Tables, ids: set<string>, b: string, roomId: string, l: Launch)
    requires Joined(t, u, ids) && LaunchIn(u, b, roomId, l).Ok? && w == LaunchIn(u, b, roomId, l).value
    ensures Joined(t, w, ids + {l.executionId})
  {
    LaunchAddsOne(u, b, roomId, l);
    hide LaunchIn;
    assert w.executions.Keys == u.executions.Keys + {l.executionId};
  }

  lemma {:induction false} LaunchAllJoins(t: Tables, b: string, roomId: string, launches: seq<Launch>)
    requires LaunchAll(t, b, roomId, launches).Ok?
    ensures Joined(t, LaunchAll(t, b, roomId, launches).value, LaunchedIds(launches))
  {
    hide LaunchIn;
    if launches == [] {
      assert t.executions.Keys == t.executions.Keys + {};
    } else {
      var n := |launches| - 1;
      LaunchAllJoins(t, b, roomId, launches[..n]);
      JoinedOneMore(t, LaunchAll(t, b, roomId, launches[..n]).value, LaunchAll(t, b, roomId, launches).value,
                    LaunchedIds(launches[..n]), b, roomId, launches[n]);
    }
  }

  lemma OpenedMeansRows(t: Tables, b: string, roomId: string, lockId: Option<string>)
    ensures var o := Opened(t, b, roomId, lockId);
            && o.executions == t.executions
            && o.branches == t.branches[b := Branch(roomId, true, BranchStatus.Running)]
            && o.locks == if lockId.Some? then t.locks[roomId := TurnLock(lockId.value, b)] else t.locks
  {
  }

  lemma JoinedAre(t: Tables, u: Tables, b: string, ids: set<string>)
    requires Joined(t, u, ids) && Grown(t, u, b)
    requires forall e <- t.executions :: t.executions[e].branchId != b
    ensures forall e :: OfBranch(u.executions, b, e) <==> e in ids
  {
    forall e ensures OfBranch(u.executions, b, e) <==> e in ids {
      if e in u.executions && e !in t.executions {
        assert Fresh(u.executions[e], u.sessions, b);
      }
    }
  }

  /**
   A started branch is RUNNING, its executions are exactly the launches, all PENDING behind open runs, and it
   holds the room's turn exactly when it asked for it; no other room's turn changes.
   */
  lemma BranchOpens(t: Tables, b: string, roomId: string, lockId: Option<string>, launches: seq<Launch>)
    requires Inv(t) && StartBranch(t, b, roomId, lockId, launches).Ok?
    ensures var u := StartBranch(t, b, roomId, lockId, launches).value;
            && b !in t.branches && u.branches == t.branches[b := Branch(roomId, true, BranchStatus.Running)]
            && (forall e :: OfBranch(u.executions, b, e) <==> e in LaunchedIds(launches))
            && (forall e :: e in LaunchedIds(launches) ==> u.executions[e].status.Pending? && RunOpen(u, e))
            && u.locks == if lockId.Some? then t.locks[roomId := TurnLock(lockId.value, b)] else t.locks
  {
    StartBranchMeans(t, b, roomId, lockId, launches);
    var o := Opened(t, b, roomId, lockId);
    OpenedMeansRows(t, b, roomId, lockId);
    LaunchAllGrows(o, b, roomId, launches);
    LaunchAllJoins(o, b, roomId, launches);
    hide StartBranch, LaunchAll, Opened;
    JoinedAre(o, LaunchAll(o, b, roomId, launches).value, b, LaunchedIds(launches));
  }
}
