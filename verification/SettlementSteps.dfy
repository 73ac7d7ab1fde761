/** Every permitted step of the settlement kernel keeps the invariant, and so does every run of them. */
module SettlementSteps {
  import opened Prelude
  import A = AgentTasks
  import opened Settlement
  import opened SettlementInvariant

  lemma QuietAppendKeeps(t: Tables, entries: seq<Entry>)
    requires Inv(t) && Quiet(entries)
    ensures Inv(Append(t, entries))
  {
    QuietKeepsAnnounced(t.branches, t.log, entries);
  }

  lemma PostKeeps(t: Tables, messageId: string, m: Message)
    requires Inv(t) && PostMessage(t, messageId, m).Ok?
    ensures Inv(PostMessage(t, messageId, m).value)
  {
    QuietAppendKeeps(t.(messages := t.messages[messageId := m]), [Entry(m.roomId, MessagePosted(messageId))]);
  }

  // ---- Ends

  lemma MarkMeans(t: Tables, sessionId: string, status: SessionStatus)
    ensures var u := MarkSession(t, sessionId, status);
            u == t.(sessions := u.sessions) && u.sessions.Keys == t.sessions.Keys
  {
  }

  lemma EndMeans(executions: map<string, Execution>, outputs: map<string, Output>, e: string, status: ExecutionStatus,
                 o: Output)
    requires OutputsMatch(executions, outputs) && e in executions && !Ended(executions[e].status) && Ended(status)
    ensures var after := executions[e := executions[e].(status := status)];
            && EndedAt(executions, after, e)
            && OutputsMatch(after, if status.Completed? then outputs[e := o] else outputs)
  {
  }

  /** The tables complete_execution has when it settles the run. */
  function Answered(t: Tables, a: Answer): Tables
    requires a.executionId in t.executions
  {
    var e := a.executionId;
    MarkSession(t.(outputs := t.outputs[e := Output(a.outputId, a.content)],
                   executions := t.executions[e := t.executions[e].(status := ExecutionStatus.Completed)]),
                a.sessionId, SessionStatus.Completed)
  }

  lemma CompleteMeans(t: Tables, a: Answer, notes: seq<string>, expected: ExecutionStatus,
                      message: Option<(string, Message)>, now: int)
    requires Complete(t, a, notes, expected, message, now).Ok?
    ensures a.executionId in t.executions && t.executions[a.executionId].status == expected
    ensures a.executionId !in t.outputs && !(a.executionId in t.runs && t.runs[a.executionId].state.Settled?)
    ensures var w := Settle(Answered(t, a), a.executionId, Verdict(EndTurn, a.agentId, now, None));
            && w.Ok?
            && var f := FinishBranch(w.value.tables, a.branchId, a.roomId);
               var done := Append(f.tables, Notes(a.roomId, notes) + w.value.entries + f.entries);
               Complete(t, a, notes, expected, message, now)
               == if message.None? then Ok(done) else PostMessage(done, message.value.0, message.value.1)
  {
    var t1 := InsertOutput(t, a);
    assert t1.Ok?;
    var t2 := Move(t1.value, a.executionId, expected, ExecutionStatus.Completed);
    assert t2.Ok?;
    assert MarkSession(t2.value, a.sessionId, SessionStatus.Completed) == Answered(t, a);
  }

  lemma AnsweredIsEnded(t: Tables, a: Answer)
    requires OutputsMatch(t.executions, t.outputs)
    requires a.executionId in t.executions && !Ended(t.executions[a.executionId].status)
    ensures EndedIn(t, Answered(t, a), a.executionId)
  {
    var e := a.executionId;
    EndMeans(t.executions, t.outputs, e, ExecutionStatus.Completed, Output(a.outputId, a.content));
    MarkMeans(t.(outputs := t.outputs[e := Output(a.outputId, a.content)],
                 executions := t.executions[e := t.executions[e].(status := ExecutionStatus.Completed)]),
              a.sessionId, SessionStatus.Completed);
  }

  lemma CompleteKeeps(t: Tables, a: Answer, notes: seq<string>, expected: ExecutionStatus,
                      message: Option<(string, Message)>, now: int)
    requires Inv(t) && Complete(t, a, notes, expected, message, now).Ok?
    requires !Ended(expected) && OwnBranch(t, a.executionId, a.branchId)
    ensures Inv(Complete(t, a, notes, expected, message, now).value)
  {
    CompleteMeans(t, a, notes, expected, message, now);
    AnsweredIsEnded(t, a);
    var v := Verdict(EndTurn, a.agentId, now, None);
    EndKeeps(t, Answered(t, a), a.executionId, a.branchId, v, a.roomId, Notes(a.roomId, notes));
    var w := Settle(Answered(t, a), a.executionId, v).value;
    var f := FinishBranch(w.tables, a.branchId, a.roomId);
    var done := Append(f.tables, Notes(a.roomId, notes) + w.entries + f.entries);
    if message.Some? {
      PostKeeps(done, message.value.0, message.value.1);
    }
  }

  /** The tables terminalize_without_output has when it settles the run. */
  function Terminated(t: Tables, x: Snapshot, status: ExecutionStatus): Tables
    requires x.executionId in t.executions
  {
    var e := x.executionId;
    MarkSession(t.(executions := t.executions[e := t.executions[e].(status := status)]), x.sessionId, SessionStatus.Failed)
  }

  lemma TerminalizeMeans(t: Tables, x: Snapshot, status: ExecutionStatus, notes: seq<string>,
                         settlement: Option<RunSettlement>, decidedBy: string, lease: Option<int>, now: int)
    requires Terminalize(t, x, status, notes, settlement, decidedBy, lease, now).Ok?
    ensures status.Failed? || status.Cancelled?
    ensures x.executionId in t.executions && t.executions[x.executionId].status == x.status
    ensures x.sessionId in t.sessions
    ensures var room := t.sessions[x.sessionId].roomId;
            var v := Verdict(settlement.GetOr(DefaultSettlement(status)),
                             if decidedBy != "" then decidedBy else x.agentId, now, lease);
            var w := Settle(Terminated(t, x, status), x.executionId, v);
            && w.Ok?
            && var f := FinishBranch(w.value.tables, x.branchId, room);
               Terminalize(t, x, status, notes, settlement, decidedBy, lease, now)
               == Ok(Append(f.tables, Notes(room, notes) + w.value.entries + f.entries))
  {
  }

  lemma TerminatedIsEnded(t: Tables, x: Snapshot, status: ExecutionStatus)
    requires OutputsMatch(t.executions, t.outputs) && (status.Failed? || status.Cancelled?)
    requires x.executionId in t.executions && !Ended(t.executions[x.executionId].status)
    ensures EndedIn(t, Terminated(t, x, status), x.executionId)
  {
    var e := x.executionId;
    EndMeans(t.executions, t.outputs, e, status, Output("", ""));
    MarkMeans(t.(executions := t.executions[e := t.executions[e].(status := status)]), x.sessionId, SessionStatus.Failed);
  }

  lemma TerminalizeKeeps(t: Tables, x: Snapshot, status: ExecutionStatus, notes: seq<string>,
                         settlement: Option<RunSettlement>, decidedBy: string, lease: Option<int>, now: int)
    requires Inv(t) && Terminalize(t, x, status, notes, settlement, decidedBy, lease, now).Ok?
    requires !Ended(x.status) && OwnBranch(t, x.executionId, x.branchId)
    ensures Inv(Terminalize(t, x, status, notes, settlement, decidedBy, lease, now).value)
  {
    TerminalizeMeans(t, x, status, notes, settlement, decidedBy, lease, now);
    TerminatedIsEnded(t, x, status);
    var room := t.sessions[x.sessionId].roomId;
    var v := Verdict(settlement.GetOr(DefaultSettlement(status)), if decidedBy != "" then decidedBy else x.agentId, now,
                     lease);
    EndKeeps(t, Terminated(t, x, status), x.executionId, x.branchId, v, room, Notes(room, notes));
  }

  lemma SettleAloneKeeps(t: Tables, e: string, v: Verdict)
    requires Inv(t) && SettleAlone(t, e, v).Ok?
    ensures Inv(SettleAlone(t, e, v).value)
  {
    var w := Settle(t, e, v).value;
    SettleMeans(t, e, v);
    EndedRunsMatch(t.executions, t, e, v, w);
    EndedTasksFollow(t.executions, t, e, v, w);
    QuietAppendKeeps(w.tables, w.entries);
  }

  // ---- Steps that end nothing

  lemma MoveKeeps(t: Tables, e: string, expected: ExecutionStatus, target: ExecutionStatus)
    requires Inv(t) && Move(t, e, expected, target).Ok? && !Ended(expected) && !Ended(target)
    ensures Inv(Move(t, e, expected, target).value)
  {
    var u := Move(t, e, expected, target).value;
    forall b | b in u.branches ensures Derived(u.executions, u.branches[b], b) {
      assert Derived(t.executions, t.branches[b], b);
      MoveDerives(t.executions, u.executions, e, t.branches[b], b);
    }
    forall k | k in u.tasks ensures Attached(k, u.tasks[k], u.executions, u.runs) {
      assert Attached(k, t.tasks[k], t.executions, t.runs);
    }
  }

  lemma MoveDerives(before: map<string, Execution>, after: map<string, Execution>, e: string, branch: Branch, b: string)
    requires e in before && e in after && !Ended(before[e].status) && !Ended(after[e].status)
    requires after == before[e := before[e].(status := after[e].status)]
    requires Derived(before, branch, b)
    ensures Derived(after, branch, b)
  {
    if before[e].branchId == b {
      assert OfBranch(before, b, e) && OfBranch(after, b, e);
    } else {
      assert SameBranch(before, after, b);
      SameBranchDerives(before, after, branch, b);
    }
  }

  /** The runs after an update that leaves settled ones alone and settles none. */
  ghost predicate StillOpen(before: map<string, AgentRun>, after: map<string, AgentRun>) {
    && before.Keys == after.Keys
    && forall e <- before :: && after[e].settlement == before[e].settlement
                             && after[e].settledAt == before[e].settledAt
                             && (after[e].state.Settled? <==> before[e].state.Settled?)
  }

  lemma OpenRunsKeep(t: Tables, runs: map<string, AgentRun>)
    requires Inv(t) && StillOpen(t.runs, runs)
    ensures Inv(t.(runs := runs))
  {
    var u := t.(runs := runs);
    forall k | k in u.tasks ensures Attached(k, u.tasks[k], u.executions, u.runs) {
      assert Attached(k, t.tasks[k], t.executions, t.runs);
    }
  }

  lemma AdvanceMeans(t: Tables, runId: string, state: HarnessState, lease: int, user: string, expected: Option<HarnessState>)
    requires Advance(t, runId, state, lease, user, expected).Ok?
    requires forall e <- t.runs :: t.runs[e].state.Settled? <==> t.runs[e].settlement.Some?
    ensures var u := Advance(t, runId, state, lease, user, expected).value;
            u == t.(runs := u.runs) && StillOpen(t.runs, u.runs)
  {
  }

  lemma AdvanceKeeps(t: Tables, runId: string, state: HarnessState, lease: int, user: string, expected: Option<HarnessState>)
    requires Inv(t) && Advance(t, runId, state, lease, user, expected).Ok?
    ensures Inv(Advance(t, runId, state, lease, user, expected).value)
  {
    AdvanceMeans(t, runId, state, lease, user, expected);
    hide Advance;
    OpenRunsKeep(t, Advance(t, runId, state, lease, user, expected).value.runs);
  }

  lemma SpendKeeps(t: Tables, runId: string, expected: int)
    requires Inv(t)
    ensures Inv(SpendAttempt(t, runId, expected))
  {
    OpenRunsKeep(t, SpendAttempt(t, runId, expected).runs);
  }

  lemma TransitionKeeps(t: Tables, k: string, expected: A.TaskState, target: A.TaskState)
    requires Inv(t) && TransitionTask(t, k, expected, target).Ok?
    ensures Inv(TransitionTask(t, k, expected, target).value)
  {
    var u := TransitionTask(t, k, expected, target).value;
    forall k' | k' in u.tasks ensures Attached(k', u.tasks[k'], u.executions, u.runs) {
      assert Attached(k', t.tasks[k'], t.executions, t.runs);
    }
  }

  lemma OpenTaskKeeps(t: Tables, k: string, roomId: string)
    requires Inv(t) && OpenTask(t, k, roomId).Ok?
    ensures Inv(OpenTask(t, k, roomId).value)
  {
    var u := OpenTask(t, k, roomId).value;
    forall k' | k' in u.tasks ensures Attached(k', u.tasks[k'], u.executions, u.runs) {
      assert k' != k ==> Attached(k', t.tasks[k'], t.executions, t.runs);
    }
  }

  // ---- Starts

  lemma UnmanagedAdds(executions: map<string, Execution>, branches: map<string, Branch>, log: seq<Entry>, b: string,
                      roomId: string)
    requires BranchesDerived(executions, branches) && Announced(branches, log) && b !in branches
    ensures var more := branches[b := Branch(roomId, false, BranchStatus.Running)];
            BranchesDerived(executions, more) && Announced(more, log)
  {
    var more := branches[b := Branch(roomId, false, BranchStatus.Running)];
    forall b' | b' in more ensures Derived(executions, more[b'], b') {
      assert b' != b ==> Derived(executions, branches[b'], b');
    }
    forall b': string ensures Finishes(log, b') == Owed(more, b') {
      assert Finishes(log, b') == Owed(branches, b');
    }
  }

  lemma LegacyKeeps(t: Tables, roomId: string, newId: string)
    requires Inv(t) && LegacyBranch(t, roomId, newId).Ok?
    ensures var (u, b) := LegacyBranch(t, roomId, newId).value;
            && Inv(u) && b in u.branches && !u.branches[b].managed && u.branches[b].roomId == roomId
            && u == t.(branches := u.branches, legacy := u.legacy)
  {
    if roomId !in t.legacy {
      UnmanagedAdds(t.executions, t.branches, t.log, newId, roomId);
    }
  }

  lemma GrowthKeeps(t: Tables, u: Tables, b: string)
    requires Inv(t) && Grown(t, u, b) && b in t.branches && !t.branches[b].managed
    ensures Inv(u)
  {
    GrownKeepsTables(t, u, b);
    GrownKeepsTasks(t, u, b);
    assert Derived(t.executions, t.branches[b], b);
    GrownKeepsBranches(t, u, b);
  }

  lemma InvokeKeeps(t: Tables, roomId: string, l: Launch, legacyId: string, kind: string)
    requires Inv(t) && Invoke(t, roomId, l, legacyId, kind).Ok?
    ensures Inv(Invoke(t, roomId, l, legacyId, kind).value)
  {
    LegacyKeeps(t, roomId, legacyId);
    var (t1, b) := LegacyBranch(t, roomId, legacyId).value;
    LaunchGrows(t1, b, roomId, l);
    var t2 := LaunchIn(t1, b, roomId, l).value;
    GrowthKeeps(t1, t2, b);
    QuietAppendKeeps(t2, [Entry(roomId, Note(kind))]);
  }

  lemma AttachKeeps(t: Tables, k: string, e: string)
    requires Inv(t) && AttachExecution(t, k, e).Ok? && !t.tasks[k].state.Submitted?
    requires e in t.executions && t.executions[e].taskId == Some(k) && RunOpen(t, e)
    ensures Inv(AttachExecution(t, k, e).value)
  {
    var u := AttachExecution(t, k, e).value;
    forall k' | k' in u.tasks ensures Attached(k', u.tasks[k'], u.executions, u.runs) {
      assert Attached(k', t.tasks[k'], t.executions, t.runs);
    }
  }

  lemma StartTaskMeans(t: Tables, k: string, expected: A.TaskState, l: Launch, legacyId: string)
    requires StartTask(t, k, expected, l, legacyId).Ok?
    ensures TransitionTask(t, k, expected, A.Working).Ok?
    ensures var t1 := TransitionTask(t, k, expected, A.Working).value;
            && k in t1.tasks && t1.tasks[k].state.Working? && LegacyBranch(t1, t1.tasks[k].roomId, legacyId).Ok?
            && var (t2, b) := LegacyBranch(t1, t1.tasks[k].roomId, legacyId).value;
               var t3 := LaunchIn(t2, b, t1.tasks[k].roomId, l.(taskId := Some(k)));
               && t3.Ok? && AttachExecution(t3.value, k, l.executionId).Ok?
               && var t4 := AttachExecution(t3.value, k, l.executionId).value;
                  StartTask(t, k, expected, l, legacyId) == Ok(Append(t4, [Moved(t4, k)]))
  {
  }

  lemma LaunchInLegacyKeeps(t: Tables, b: string, roomId: string, l: Launch)
    requires Inv(t) && b in t.branches && !t.branches[b].managed && LaunchIn(t, b, roomId, l).Ok?
    ensures Inv(LaunchIn(t, b, roomId, l).value)
  {
    LaunchGrows(t, b, roomId, l);
    GrowthKeeps(t, LaunchIn(t, b, roomId, l).value, b);
  }

  lemma StartTaskKeeps(t: Tables, k: string, expected: A.TaskState, l: Launch, legacyId: string)
    requires Inv(t) && StartTask(t, k, expected, l, legacyId).Ok?
    ensures Inv(StartTask(t, k, expected, l, legacyId).value)
  {
    hide Inv;
    StartTaskMeans(t, k, expected, l, legacyId);
    TransitionKeeps(t, k, expected, A.Working);
    var t1 := TransitionTask(t, k, expected, A.Working).value;
    var room := t1.tasks[k].roomId;
    LegacyKeeps(t1, room, legacyId);
    var (t2, b) := LegacyBranch(t1, room, legacyId).value;
    var own := l.(taskId := Some(k));
    LaunchInLegacyKeeps(t2, b, room, own);
    var t3 := LaunchIn(t2, b, room, own).value;
    LaunchGrows(t2, b, room, own);
    AttachKeeps(t3, k, l.executionId);
    var t4 := AttachExecution(t3, k, l.executionId).value;
    QuietAppendKeeps(t4, [Moved(t4, k)]);
  }

  lemma StartInGrows(t: Tables, l: Launch, enveloped: bool, b: string, status: ExecutionStatus)
    requires l.sessionId in t.sessions && StartIn(t, l, enveloped, b, status).Ok? && !Ended(status)
    ensures Grown(t, StartIn(t, l, enveloped, b, status).value, b) && b in t.branches
  {
    MarkMeans(t, l.sessionId, Active);
  }

  lemma StartedKeeps(t: Tables, l: Launch, enveloped: bool, b: string, status: ExecutionStatus, roomId: string, kind: string)
    requires Inv(t) && l.sessionId in t.sessions && StartIn(t, l, enveloped, b, status).Ok? && !Ended(status)
    requires b in t.branches ==> !t.branches[b].managed
    ensures Inv(Append(StartIn(t, l, enveloped, b, status).value, [Entry(roomId, Note(kind))]))
  {
    StartInGrows(t, l, enveloped, b, status);
    var u := StartIn(t, l, enveloped, b, status).value;
    GrowthKeeps(t, u, b);
    QuietAppendKeeps(u, [Entry(roomId, Note(kind))]);
  }

  lemma StartWithEventMeans(t: Tables, l: Launch, enveloped: bool, branchId: string, status: ExecutionStatus,
                            legacyId: string, kind: string)
    requires StartWithEvent(t, l, enveloped, branchId, status, legacyId, kind).Ok?
    ensures l.sessionId in t.sessions && (branchId == "" ==> LegacyBranch(t, t.sessions[l.sessionId].roomId, legacyId).Ok?)
    ensures var room := t.sessions[l.sessionId].roomId;
            var (t1, b) := if branchId == "" then LegacyBranch(t, room, legacyId).value else (t, branchId);
            && t1.sessions == t.sessions
            && StartIn(t1, l, enveloped, b, status).Ok?
            && StartWithEvent(t, l, enveloped, branchId, status, legacyId, kind).value
               == Append(StartIn(t1, l, enveloped, b, status).value, [Entry(room, Note(kind))])
  {
  }

  lemma StartWithEventKeeps(t: Tables, l: Launch, enveloped: bool, branchId: string, status: ExecutionStatus,
                            legacyId: string, kind: string)
    requires Inv(t) && StartWithEvent(t, l, enveloped, branchId, status, legacyId, kind).Ok?
    requires !Ended(status) && (branchId in t.branches ==> !t.branches[branchId].managed)
    ensures Inv(StartWithEvent(t, l, enveloped, branchId, status, legacyId, kind).value)
  {
    var room := t.sessions[l.sessionId].roomId;
    StartWithEventMeans(t, l, enveloped, branchId, status, legacyId, kind);
    if branchId == "" {
      LegacyKeeps(t, room, legacyId);
      var (t1, b) := LegacyBranch(t, room, legacyId).value;
      StartedKeeps(t1, l, enveloped, b, status, room, kind);
    } else {
      StartedKeeps(t, l, enveloped, branchId, status, room, kind);
    }
  }

  lemma OpenedIsLinked(t: Tables, b: string, roomId: string, lockId: Option<string>)
    requires Linked(t.executions, t.sessions, t.branches, t.legacy) && b !in t.branches
    ensures var u := Opened(t, b, roomId, lockId);
            Linked(u.executions, u.sessions, u.branches, u.legacy)
  {
  }

  lemma OpenedMeans(t: Tables, b: string, roomId: string, lockId: Option<string>)
    requires Inv(t) && b !in t.branches
    ensures var u := Opened(t, b, roomId, lockId);
            && BranchesDerived(u.executions, u.branches - {b}) && LocksLive(u.branches, u.locks)
            && Announced(u.branches, u.log) && Linked(u.executions, u.sessions, u.branches, u.legacy)
  {
    var u := Opened(t, b, roomId, lockId);
    OpenedIsLinked(t, b, roomId, lockId);
    hide Linked;
    forall b' | b' in u.branches - {b} ensures Derived(u.executions, u.branches[b'], b') {
      assert Derived(t.executions, t.branches[b'], b');
    }
    forall b': string ensures Finishes(u.log, b') == Owed(u.branches, b') {
      assert Finishes(t.log, b') == Owed(t.branches, b');
    }
  }

  lemma StartBranchMeans(t: Tables, b: string, roomId: string, lockId: Option<string>, launches: seq<Launch>)
    requires StartBranch(t, b, roomId, lockId, launches).Ok?
    ensures ValidParty(lockId.Some?, launches) && roomId !in t.locks && b !in t.branches
    ensures var u := LaunchAll(Opened(t, b, roomId, lockId), b, roomId, launches);
            u.Ok? && StartBranch(t, b, roomId, lockId, launches).value
                     == Append(u.value, OpeningEntries(b, roomId, lockId, launches))
  {
  }

  lemma LaunchedKeeps(t: Tables, b: string, roomId: string, lockId: Option<string>, launches: seq<Launch>)
    requires Inv(t) && b !in t.branches && launches != []
    requires LaunchAll(Opened(t, b, roomId, lockId), b, roomId, launches).Ok?
    ensures Inv(LaunchAll(Opened(t, b, roomId, lockId), b, roomId, launches).value)
  {
    OpenedMeans(t, b, roomId, lockId);
    var u := Opened(t, b, roomId, lockId);
    LaunchAllGrows(u, b, roomId, launches);
    var w := LaunchAll(u, b, roomId, launches).value;
    GrownKeepsTables(u, w, b);
    GrownKeepsTasks(u, w, b);
    GrownKeepsBranches(u, w, b);
  }

  lemma OpeningIsQuiet(b: string, roomId: string, lockId: Option<string>, launches: seq<Launch>)
    ensures Quiet(OpeningEntries(b, roomId, lockId, launches))
  {
    assert Quiet(StartedEntries(roomId, launches));
  }

  lemma StartBranchKeeps(t: Tables, b: string, roomId: string, lockId: Option<string>, launches: seq<Launch>)
    requires Inv(t) && StartBranch(t, b, roomId, lockId, launches).Ok?
    ensures Inv(StartBranch(t, b, roomId, lockId, launches).value)
  {
    StartBranchMeans(t, b, roomId, lockId, launches);
    LaunchedKeeps(t, b, roomId, lockId, launches);
    OpeningIsQuiet(b, roomId, lockId, launches);
    QuietAppendKeeps(LaunchAll(Opened(t, b, roomId, lockId), b, roomId, launches).value,
                     OpeningEntries(b, roomId, lockId, launches));
  }

  // ---- Runs

  lemma StepKeeps(t: Tables, a: Action)
    requires Inv(t) && Permitted(t, a)
    ensures Inv(After(t, a))
  {
    hide Inv;
    if Apply(t, a).Ok? {
      match a
      case BranchStart(b, roomId, lockId, launches) => StartBranchKeeps(t, b, roomId, lockId, launches);
      case EventStart(l, enveloped, branchId, status, legacyId, kind) =>
        StartWithEventKeeps(t, l, enveloped, branchId, status, legacyId, kind);
      case Invocation(roomId, l, legacyId, kind) => InvokeKeeps(t, roomId, l, legacyId, kind);
      case TaskOpening(k, roomId) => OpenTaskKeeps(t, k, roomId);
      case TaskStart(k, expected, l, legacyId) => StartTaskKeeps(t, k, expected, l, legacyId);
      case TaskTransition(k, expected, target) => TransitionKeeps(t, k, expected, target);
      case StatusUpdate(e, status, expected) => MoveKeeps(t, e, expected, status);
      case Completion(answer, notes, expected, message, now) => CompleteKeeps(t, answer, notes, expected, message, now);
      case Termination(x, status, notes, settlement, decided, lease, now) =>
        TerminalizeKeeps(t, x, status, notes, settlement, decided, lease, now);
      case LoneSettlement(e, v) => SettleAloneKeeps(t, e, v);
      case LeaseAdvance(runId, state, lease, user, expected) => AdvanceKeeps(t, runId, state, lease, user, expected);
      case AttemptSpend(runId, expected) => SpendKeeps(t, runId, expected);
      case Posting(messageId, m) => PostKeeps(t, messageId, m);
    }
  }

  /** Every step of the run is one a client may take when it takes it. */
  predicate Lawful(actions: seq<Action>) {
    actions == [] || (Lawful(actions[..|actions| - 1]) && Permitted(Run(actions[..|actions| - 1]), actions[|actions| - 1]))
  }

  lemma {:induction false} EveryRunIsSound(actions: seq<Action>)
    requires Lawful(actions)
    ensures Inv(Run(actions))
  {
    if actions != [] {
      EveryRunIsSound(actions[..|actions| - 1]);
      StepKeeps(Run(actions[..|actions| - 1]), actions[|actions| - 1]);
    }
  }

  /** What EveryRunIsSound says of one execution, one branch, one room and one task of a reachable state. */
  lemma EveryRunAgrees(actions: seq<Action>, e: string, b: string, roomId: string, k: string)
    requires Lawful(actions)
    ensures var t := Run(actions);
            && (e in t.executions ==> (e in t.outputs <==> t.executions[e].status.Completed?))
            && (e in t.executions && Ended(t.executions[e].status) && e in t.runs ==> t.runs[e].state.Settled?)
            && (b in t.branches && t.branches[b].managed ==>
                  (Finished(t.branches[b].status) <==> AllEnded(t.executions, b))
                  && (Finished(t.branches[b].status) ==> t.branches[b].status == Outcome(t.executions, b)))
            && Finishes(t.log, b) == (if b in t.branches && Finished(t.branches[b].status) then [t.branches[b].status] else [])
            && (roomId in t.locks ==> t.locks[roomId].branchId in t.branches
                                      && !Finished(t.branches[t.locks[roomId].branchId].status))
            && (k in t.tasks && t.tasks[k].executionId == Some(e) && e in t.runs && t.runs[e].state.Settled? ==>
                  A.Terminal(t.tasks[k].state))
  {
    var t := Run(actions);
    EveryRunIsSound(actions);
    assert b in t.branches ==> Derived(t.executions, t.branches[b], b);
    assert Finishes(t.log, b) == Owed(t.branches, b);
    assert k in t.tasks ==> Attached(k, t.tasks[k], t.executions, t.runs);
  }

  // ---- Run ids

  /** A new envelope brings a run id no envelope has; everything else keeps every run id. */
  ghost predicate RunIdsFollow(before: map<string, AgentRun>, after: map<string, AgentRun>) {
    && before.Keys <= after.Keys
    && (forall e <- before :: after[e].runId == before[e].runId)
    && forall e <- after, f <- after :: e !in before && after[e].runId == after[f].runId ==> e == f
  }

  lemma RunIdsFollowOn(a: map<string, AgentRun>, b: map<string, AgentRun>, c: map<string, AgentRun>)
    requires RunIdsFollow(a, b) && RunIdsFollow(b, c)
    ensures RunIdsFollow(a, c)
  {
  }

  lemma InsertedRunIdsFollow(t: Tables, roomId: string, l: Launch)
    requires InsertRun(t, roomId, l).Ok?
    ensures RunIdsFollow(t.runs, InsertRun(t, roomId, l).value.runs)
  {
  }

  lemma LaunchedRunIdsFollow(t: Tables, b: string, roomId: string, l: Launch)
    requires LaunchIn(t, b, roomId, l).Ok?
    ensures RunIdsFollow(t.runs, LaunchIn(t, b, roomId, l).value.runs)
  {
    var t1 := OpenSession(t, l.sessionId, roomId).value;
    var x := Execution(l.sessionId, l.agentId, b, l.taskId, ExecutionStatus.Pending);
    var t2 := InsertExecution(t1, l.executionId, x).value;
    InsertedRunIdsFollow(t2, roomId, l);
  }

  lemma {:induction false} AllRunIdsFollow(t: Tables, b: string, roomId: string, launches: seq<Launch>)
    requires LaunchAll(t, b, roomId, launches).Ok?
    ensures RunIdsFollow(t.runs, LaunchAll(t, b, roomId, launches).value.runs)
  {
    if launches != [] {
      var n := |launches| - 1;
      AllRunIdsFollow(t, b, roomId, launches[..n]);
      var t1 := LaunchAll(t, b, roomId, launches[..n]).value;
      LaunchedRunIdsFollow(t1, b, roomId, launches[n]);
      RunIdsFollowOn(t.runs, t1.runs, LaunchIn(t1, b, roomId, launches[n]).value.runs);
    }
  }

  lemma StartedRunIdsFollow(t: Tables, l: Launch, enveloped: bool, b: string, status: ExecutionStatus)
    requires l.sessionId in t.sessions && StartIn(t, l, enveloped, b, status).Ok?
    ensures RunIdsFollow(t.runs, StartIn(t, l, enveloped, b, status).value.runs)
  {
    var t2 := MarkSession(t, l.sessionId, Active);
    var t3 := InsertExecution(t2, l.executionId, Execution(l.sessionId, l.agentId, b, l.taskId, status)).value;
    if enveloped {
      InsertedRunIdsFollow(t3, t.sessions[l.sessionId].roomId, l);
    }
  }

  lemma SettledRunIdsFollow(t: Tables, e: string, v: Verdict)
    requires Settle(t, e, v).Ok?
    ensures RunIdsFollow(t.runs, Settle(t, e, v).value.tables.runs)
  {
    SettleMeans(t, e, v);
  }

  lemma BranchRunIdsFollow(t: Tables, b: string, roomId: string, lockId: Option<string>, launches: seq<Launch>)
    requires StartBranch(t, b, roomId, lockId, launches).Ok?
    ensures RunIdsFollow(t.runs, StartBranch(t, b, roomId, lockId, launches).value.runs)
  {
    StartBranchMeans(t, b, roomId, lockId, launches);
    AllRunIdsFollow(Opened(t, b, roomId, lockId), b, roomId, launches);
    hide RunIdsFollow, LaunchAll, StartBranch;
  }

  lemma EventRunIdsFollow(t: Tables, l: Launch, enveloped: bool, branchId: string, status: ExecutionStatus,
                          legacyId: string, kind: string)
    requires StartWithEvent(t, l, enveloped, branchId, status, legacyId, kind).Ok?
    ensures RunIdsFollow(t.runs, StartWithEvent(t, l, enveloped, branchId, status, legacyId, kind).value.runs)
  {
    StartWithEventMeans(t, l, enveloped, branchId, status, legacyId, kind);
    var room := t.sessions[l.sessionId].roomId;
    var (t1, b) := if branchId == "" then LegacyBranch(t, room, legacyId).value else (t, branchId);
    StartedRunIdsFollow(t1, l, enveloped, b, status);
    hide RunIdsFollow, StartIn, StartWithEvent;
  }

  lemma InvokedRunIdsFollow(t: Tables, roomId: string, l: Launch, legacyId: string, kind: string)
    requires Invoke(t, roomId, l, legacyId, kind).Ok?
    ensures RunIdsFollow(t.runs, Invoke(t, roomId, l, legacyId, kind).value.runs)
  {
    hide RunIdsFollow, LaunchIn;
    var (t1, b) := LegacyBranch(t, roomId, legacyId).value;
    LaunchedRunIdsFollow(t1, b, roomId, l);
  }

  lemma TaskRunIdsFollow(t: Tables, k: string, expected: A.TaskState, l: Launch, legacyId: string)
    requires StartTask(t, k, expected, l, legacyId).Ok?
    ensures RunIdsFollow(t.runs, StartTask(t, k, expected, l, legacyId).value.runs)
  {
    StartTaskMeans(t, k, expected, l, legacyId);
    hide RunIdsFollow, LaunchIn, StartTask;
    var t1 := TransitionTask(t, k, expected, A.Working).value;
    var (t2, b) := LegacyBranch(t1, t1.tasks[k].roomId, legacyId).value;
    LaunchedRunIdsFollow(t2, b, t1.tasks[k].roomId, l.(taskId := Some(k)));
  }

  lemma CompletedRunIdsFollow(t: Tables, a: Answer, notes: seq<string>, expected: ExecutionStatus,
                              message: Option<(string, Message)>, now: int)
    requires Complete(t, a, notes, expected, message, now).Ok?
    ensures RunIdsFollow(t.runs, Complete(t, a, notes, expected, message, now).value.runs)
  {
    CompleteMeans(t, a, notes, expected, message, now);
    var v := Verdict(EndTurn, a.agentId, now, None);
    SettledRunIdsFollow(Answered(t, a), a.executionId, v);
    FinishMeans(Settle(Answered(t, a), a.executionId, v).value.tables, a.branchId, a.roomId);
    hide RunIdsFollow, Settle, FinishBranch, Complete;
  }

  lemma EndedRunIdsFollow(t: Tables, x: Snapshot, status: ExecutionStatus, notes: seq<string>,
                          settlement: Option<RunSettlement>, decidedBy: string, lease: Option<int>, now: int)
    requires Terminalize(t, x, status, notes, settlement, decidedBy, lease, now).Ok?
    ensures RunIdsFollow(t.runs, Terminalize(t, x, status, notes, settlement, decidedBy, lease, now).value.runs)
  {
    TerminalizeMeans(t, x, status, notes, settlement, decidedBy, lease, now);
    var v := Verdict(settlement.GetOr(DefaultSettlement(status)), if decidedBy != "" then decidedBy else x.agentId, now,
                     lease);
    var s := Terminated(t, x, status);
    SettledRunIdsFollow(s, x.executionId, v);
    FinishMeans(Settle(s, x.executionId, v).value.tables, x.branchId, t.sessions[x.sessionId].roomId);
    hide RunIdsFollow, Settle, FinishBranch, Terminalize;
  }

  lemma AdvancedRunIdsFollow(runs: map<string, AgentRun>, runId: string, state: HarnessState, lease: int, user: string,
                             expected: Option<HarnessState>)
    ensures RunIdsFollow(runs, AdvancedRuns(runs, runId, state, lease, user, expected))
  {
  }

  lemma ChargedRunIdsFollow(runs: map<string, AgentRun>, runId: string, expected: int)
    ensures RunIdsFollow(runs, ChargedRuns(runs, runId, expected))
  {
  }

  lemma SameRunIdsFollow(runs: map<string, AgentRun>)
    ensures RunIdsFollow(runs, runs)
  {
  }

  lemma QuietStepKeepsRunIds(t: Tables, a: Action)
    requires Apply(t, a).Ok?
    requires a.LeaseAdvance? || a.AttemptSpend? || a.TaskTransition? || a.StatusUpdate? || a.TaskOpening? || a.Posting?
    ensures RunIdsFollow(t.runs, Apply(t, a).value.runs)
  {
    hide RunIdsFollow, AdvancedRuns, ChargedRuns;
    SameRunIdsFollow(t.runs);
    match a
    case LeaseAdvance(runId, state, lease, user, expected) => AdvancedRunIdsFollow(t.runs, runId, state, lease, user, expected);
    case AttemptSpend(runId, expected) => ChargedRunIdsFollow(t.runs, runId, expected);
    case _ =>
  }

  lemma StepKeepsRunIds(t: Tables, a: Action)
    requires Apply(t, a).Ok?
    ensures RunIdsFollow(t.runs, Apply(t, a).value.runs)
  {
    hide RunIdsFollow, Complete, Terminalize, StartBranch, StartWithEvent, Invoke, StartTask, Settle;
    match a
    case BranchStart(b, roomId, lockId, launches) => BranchRunIdsFollow(t, b, roomId, lockId, launches);
    case EventStart(l, enveloped, branchId, status, legacyId, kind) =>
      EventRunIdsFollow(t, l, enveloped, branchId, status, legacyId, kind);
    case Invocation(roomId, l, legacyId, kind) => InvokedRunIdsFollow(t, roomId, l, legacyId, kind);
    case TaskStart(k, expected, l, legacyId) => TaskRunIdsFollow(t, k, expected, l, legacyId);
    case Completion(answer, notes, expected, message, now) => CompletedRunIdsFollow(t, answer, notes, expected, message, now);
    case Termination(x, status, notes, settlement, decided, lease, now) =>
      EndedRunIdsFollow(t, x, status, notes, settlement, decided, lease, now);
    case LoneSettlement(e, v) => SettledRunIdsFollow(t, e, v);
    case _ => QuietStepKeepsRunIds(t, a);
  }

  /** run_id is a key in every reachable state. */
  lemma {:induction false} RunIdsStayUnique(actions: seq<Action>)
    ensures UniqueRunIds(Run(actions).runs)
  {
    if actions != [] {
      var t, a := Run(actions[..|actions| - 1]), actions[|actions| - 1];
      RunIdsStayUnique(actions[..|actions| - 1]);
      if Apply(t, a).Ok? {
        StepKeepsRunIds(t, a);
      }
    }
  }
}
