/** What the room logs say of settlements: each settled run has exactly one event, which gives its reason. */
module SettlementLog {
  import opened Prelude
  import A = AgentTasks
  import opened Settlement
  import opened SettlementInvariant
  import opened SettlementSteps

  /** The reasons a log gives for settling the run around an execution, in order. */
  function Reasons(log: seq<Entry>, e: string): seq<RunSettlement> {
    if log == [] then []
    else
      var fact := log[|log| - 1].fact;
      var before := Reasons(log[..|log| - 1], e);
      if fact.RunSettled? && fact.executionId == e then before + [fact.settlement] else before
  }

  function Due(runs: map<string, AgentRun>, e: string): seq<RunSettlement> {
    if e in runs && runs[e].settlement.Some? then [runs[e].settlement.value] else []
  }

  ghost predicate Told(runs: map<string, AgentRun>, log: seq<Entry>) {
    forall e: string :: Reasons(log, e) == Due(runs, e)
  }

  lemma {:induction false} ReasonsAppend(log: seq<Entry>, more: seq<Entry>, e: string)
    ensures Reasons(log + more, e) == Reasons(log, e) + Reasons(more, e)
  {
    if more == [] {
      assert log + more == log;
    } else {
      ReasonsAppend(log, more[..|more| - 1], e);
      assert (log + more)[..|log + more| - 1] == log + more[..|more| - 1];
    }
  }

  ghost predicate Mute(entries: seq<Entry>) {
    forall i :: 0 <= i < |entries| ==> !entries[i].fact.RunSettled?
  }

  lemma {:induction false} MuteGivesNone(entries: seq<Entry>, e: string)
    requires Mute(entries)
    ensures Reasons(entries, e) == []
  {
    if entries != [] {
      MuteGivesNone(entries[..|entries| - 1], e);
    }
  }

  lemma MuteKeepsTold(runs: map<string, AgentRun>, after: map<string, AgentRun>, log: seq<Entry>, more: seq<Entry>)
    requires Told(runs, log) && Mute(more)
    requires forall e: string :: Due(after, e) == Due(runs, e)
    ensures Told(after, log + more)
  {
    forall e: string ensures Reasons(log + more, e) == Due(after, e) {
      ReasonsAppend(log, more, e);
      MuteGivesNone(more, e);
    }
  }

  // ---- Steps that settle

  lemma TaskEntriesAreMute(t: Tables, e: string, settlement: RunSettlement)
    requires SettleTask(t, e, settlement).Ok?
    ensures Mute(SettleTask(t, e, settlement).value.entries)
  {
    if Unsettled(t, e) {
      if settlement.EndTurn? && e in t.outputs {
        SettleAnswered(t, e);
      } else {
        SettleUnanswered(t, e, settlement);
      }
    }
  }

  lemma OwnEntriesTell(run: AgentRun, e: string, v: Verdict, other: string)
    ensures Reasons(SettledEntries(run, e, v), other) == if other == e then [v.settlement] else []
  {
    var entries := SettledEntries(run, e, v);
    var first := entries[..1];
    assert entries == first + entries[1..] && first[..0] == [];
    ReasonsAppend(first, entries[1..], other);
    MuteGivesNone(entries[1..], other);
  }

  /** What the entries of a settlement say. */
  lemma SettleTells(t: Tables, e: string, v: Verdict, other: string)
    requires Settle(t, e, v).Ok?
    ensures Reasons(Settle(t, e, v).value.entries, other) == if RunOpen(t, e) && other == e then [v.settlement] else []
  {
    if RunOpen(t, e) {
      var t1 := t.(runs := t.runs[e := SettledRun(t.runs[e], v)]);
      var task := SettleTask(t1, e, v.settlement).value.entries;
      TaskEntriesAreMute(t1, e, v.settlement);
      OwnEntriesTell(t.runs[e], e, v, other);
      ReasonsAppend(SettledEntries(t.runs[e], e, v), task, other);
      MuteGivesNone(task, other);
    }
  }

  lemma BetweenMute(before: seq<Entry>, told: seq<Entry>, after: seq<Entry>, e: string)
    requires Mute(before) && Mute(after)
    ensures Reasons(before + told + after, e) == Reasons(told, e)
  {
    ReasonsAppend(before + told, after, e);
    ReasonsAppend(before, told, e);
    MuteGivesNone(before, e);
    MuteGivesNone(after, e);
  }

  lemma SettlingTells(log: seq<Entry>, u: Tables, e: string, v: Verdict, before: seq<Entry>, after: seq<Entry>, other: string)
    requires RunOpen(u, e) ==> u.runs[e].settlement.None?
    requires Reasons(log, other) == Due(u.runs, other) && Settle(u, e, v).Ok? && Mute(before) && Mute(after)
    ensures var w := Settle(u, e, v).value;
            Reasons(log + (before + w.entries + after), other) == Due(w.tables.runs, other)
  {
    var w := Settle(u, e, v).value;
    ReasonsAppend(log, before + w.entries + after, other);
    BetweenMute(before, w.entries, after, other);
    SettleTells(u, e, v, other);
    SettleMeans(u, e, v);
  }

  lemma SettlingKeepsTold(log: seq<Entry>, u: Tables, e: string, v: Verdict, before: seq<Entry>, after: seq<Entry>)
    requires RunOpen(u, e) ==> u.runs[e].settlement.None?
    requires Told(u.runs, log) && Settle(u, e, v).Ok? && Mute(before) && Mute(after)
    ensures var w := Settle(u, e, v).value;
            Told(w.tables.runs, log + (before + w.entries + after))
  {
    var w := Settle(u, e, v).value;
    forall other: string ensures Reasons(log + (before + w.entries + after), other) == Due(w.tables.runs, other) {
      SettlingTells(log, u, e, v, before, after, other);
    }
  }

  lemma FinishIsMute(t: Tables, b: string, roomId: string)
    ensures Mute(FinishBranch(t, b, roomId).entries) && FinishBranch(t, b, roomId).tables.runs == t.runs
  {
    FinishMeans(t, b, roomId);
  }

  lemma EndTells(t: Tables, u: Tables, e: string, v: Verdict, b: string, roomId: string, notes: seq<Entry>)
    requires Inv(t) && Told(t.runs, t.log) && EndedIn(t, u, e) && Settle(u, e, v).Ok? && Mute(notes)
    ensures var w := Settle(u, e, v).value;
            var f := FinishBranch(w.tables, b, roomId);
            Told(f.tables.runs, t.log + (notes + w.entries + f.entries))
  {
    var w := Settle(u, e, v).value;
    FinishIsMute(w.tables, b, roomId);
    SettlingKeepsTold(t.log, u, e, v, notes, FinishBranch(w.tables, b, roomId).entries);
  }

  lemma PostedTells(t: Tables, messageId: string, m: Message)
    requires Told(t.runs, t.log) && PostMessage(t, messageId, m).Ok?
    ensures var u := PostMessage(t, messageId, m).value;
            Told(u.runs, u.log)
  {
    MuteKeepsTold(t.runs, t.runs, t.log, [Entry(m.roomId, MessagePosted(messageId))]);
  }

  lemma CompleteTells(t: Tables, a: Answer, notes: seq<string>, expected: ExecutionStatus,
                      message: Option<(string, Message)>, now: int)
    requires Inv(t) && Told(t.runs, t.log) && !Ended(expected) && Complete(t, a, notes, expected, message, now).Ok?
    ensures var u := Complete(t, a, notes, expected, message, now).value;
            Told(u.runs, u.log)
  {
    CompleteMeans(t, a, notes, expected, message, now);
    AnsweredIsEnded(t, a);
    hide Told, Complete, Inv;
    var s := Answered(t, a);
    var v := Verdict(EndTurn, a.agentId, now, None);
    EndTells(t, s, a.executionId, v, a.branchId, a.roomId, Notes(a.roomId, notes));
    var w := Settle(s, a.executionId, v).value;
    var f := FinishBranch(w.tables, a.branchId, a.roomId);
    SettleMeans(s, a.executionId, v);
    FinishMeans(w.tables, a.branchId, a.roomId);
    var done := Append(f.tables, Notes(a.roomId, notes) + w.entries + f.entries);
    assert f.tables.log == t.log;
    hide Settle, FinishBranch, PostMessage, Answered;
    if message.Some? {
      PostedTells(done, message.value.0, message.value.1);
    }
  }

  lemma TerminalizeTells(t: Tables, x: Snapshot, status: ExecutionStatus, notes: seq<string>,
                         settlement: Option<RunSettlement>, decidedBy: string, lease: Option<int>, now: int)
    requires Inv(t) && Told(t.runs, t.log) && !Ended(x.status)
    requires Terminalize(t, x, status, notes, settlement, decidedBy, lease, now).Ok?
    ensures var u := Terminalize(t, x, status, notes, settlement, decidedBy, lease, now).value;
            Told(u.runs, u.log)
  {
    TerminalizeMeans(t, x, status, notes, settlement, decidedBy, lease, now);
    TerminatedIsEnded(t, x, status);
    var s := Terminated(t, x, status);
    var room := t.sessions[x.sessionId].roomId;
    var v := Verdict(settlement.GetOr(DefaultSettlement(status)), if decidedBy != "" then decidedBy else x.agentId, now,
                     lease);
    EndTells(t, s, x.executionId, v, x.branchId, room, Notes(room, notes));
    var w := Settle(s, x.executionId, v).value;
    SettleMeans(s, x.executionId, v);
    FinishMeans(w.tables, x.branchId, room);
  }

  lemma SettleAloneTells(t: Tables, e: string, v: Verdict)
    requires Inv(t) && Told(t.runs, t.log) && SettleAlone(t, e, v).Ok?
    ensures var u := SettleAlone(t, e, v).value;
            Told(u.runs, u.log)
  {
    var w := Settle(t, e, v).value;
    SettleMeans(t, e, v);
    SettlingKeepsTold(t.log, t, e, v, [], []);
    assert [] + w.entries + [] == w.entries;
  }

  // ---- Steps that settle nothing

  lemma GrowthTells(t: Tables, u: Tables, b: string, entries: seq<Entry>)
    requires Told(t.runs, t.log) && Grown(t, u, b) && Mute(entries)
    ensures Told(u.runs, t.log + entries)
  {
    forall e: string ensures Due(u.runs, e) == Due(t.runs, e) {
    }
    MuteKeepsTold(t.runs, u.runs, t.log, entries);
  }

  lemma LaunchTells(t: Tables, b: string, roomId: string, l: Launch, entries: seq<Entry>)
    requires Told(t.runs, t.log) && LaunchIn(t, b, roomId, l).Ok? && Mute(entries)
    ensures Told(LaunchIn(t, b, roomId, l).value.runs, t.log + entries) && LaunchIn(t, b, roomId, l).value.log == t.log
  {
    LaunchGrows(t, b, roomId, l);
    GrowthTells(t, LaunchIn(t, b, roomId, l).value, b, entries);
  }

  lemma StartBranchTells(t: Tables, b: string, roomId: string, lockId: Option<string>, launches: seq<Launch>)
    requires Told(t.runs, t.log) && StartBranch(t, b, roomId, lockId, launches).Ok?
    ensures var after := StartBranch(t, b, roomId, lockId, launches).value;
            Told(after.runs, after.log)
  {
    StartBranchMeans(t, b, roomId, lockId, launches);
    var u := Opened(t, b, roomId, lockId);
    LaunchAllGrows(u, b, roomId, launches);
    OpeningIsMute(b, roomId, lockId, launches);
    GrowthTells(u, LaunchAll(u, b, roomId, launches).value, b, OpeningEntries(b, roomId, lockId, launches));
  }

  lemma StartWithEventTells(t: Tables, l: Launch, enveloped: bool, branchId: string, status: ExecutionStatus,
                            legacyId: string, kind: string)
    requires Told(t.runs, t.log) && !Ended(status)
    requires StartWithEvent(t, l, enveloped, branchId, status, legacyId, kind).Ok?
    ensures var u := StartWithEvent(t, l, enveloped, branchId, status, legacyId, kind).value;
            Told(u.runs, u.log)
  {
    StartWithEventMeans(t, l, enveloped, branchId, status, legacyId, kind);
    var room := t.sessions[l.sessionId].roomId;
    var (t1, b) := if branchId == "" then LegacyBranch(t, room, legacyId).value else (t, branchId);
    StartInGrows(t1, l, enveloped, b, status);
    GrowthTells(t1, StartIn(t1, l, enveloped, b, status).value, b, [Entry(room, Note(kind))]);
  }

  lemma InvokeTells(t: Tables, roomId: string, l: Launch, legacyId: string, kind: string)
    requires Told(t.runs, t.log) && Invoke(t, roomId, l, legacyId, kind).Ok?
    ensures var u := Invoke(t, roomId, l, legacyId, kind).value;
            Told(u.runs, u.log)
  {
    var (t1, b) := LegacyBranch(t, roomId, legacyId).value;
    LaunchTells(t1, b, roomId, l, [Entry(roomId, Note(kind))]);
  }

  lemma StartTaskTells(t: Tables, k: string, expected: A.TaskState, l: Launch, legacyId: string)
    requires Told(t.runs, t.log) && StartTask(t, k, expected, l, legacyId).Ok?
    ensures var u := StartTask(t, k, expected, l, legacyId).value;
            Told(u.runs, u.log)
  {
    StartTaskMeans(t, k, expected, l, legacyId);
    var t1 := TransitionTask(t, k, expected, A.Working).value;
    var room := t1.tasks[k].roomId;
    var (t2, b) := LegacyBranch(t1, room, legacyId).value;
    var t3 := LaunchIn(t2, b, room, l.(taskId := Some(k))).value;
    var t4 := AttachExecution(t3, k, l.executionId).value;
    LaunchTells(t2, b, room, l.(taskId := Some(k)), [Moved(t4, k)]);
  }

  lemma OpeningIsMute(b: string, roomId: string, lockId: Option<string>, launches: seq<Launch>)
    ensures Mute(OpeningEntries(b, roomId, lockId, launches))
  {
    assert Mute(StartedEntries(roomId, launches));
  }

  lemma OpenRunsTell(t: Tables, runs: map<string, AgentRun>)
    requires Told(t.runs, t.log) && StillOpen(t.runs, runs)
    ensures Told(runs, t.log)
  {
    forall e: string ensures Due(runs, e) == Due(t.runs, e) {
    }
    MuteKeepsTold(t.runs, runs, t.log, []);
    assert t.log + [] == t.log;
  }

  lemma AdvanceTells(t: Tables, runId: string, state: HarnessState, lease: int, user: string, expected: Option<HarnessState>)
    requires Inv(t) && Told(t.runs, t.log) && Advance(t, runId, state, lease, user, expected).Ok?
    ensures var u := Advance(t, runId, state, lease, user, expected).value;
            Told(u.runs, u.log)
  {
    AdvanceMeans(t, runId, state, lease, user, expected);
    hide Told, Advance;
    OpenRunsTell(t, Advance(t, runId, state, lease, user, expected).value.runs);
  }

  lemma StartTells(t: Tables, a: Action)
    requires Told(t.runs, t.log) && Permitted(t, a) && Apply(t, a).Ok?
    requires a.BranchStart? || a.EventStart? || a.Invocation? || a.TaskStart? || a.TaskOpening?
    ensures Told(Apply(t, a).value.runs, Apply(t, a).value.log)
  {
    hide Told;
    match a
    case BranchStart(b, roomId, lockId, launches) => StartBranchTells(t, b, roomId, lockId, launches);
    case EventStart(l, enveloped, branchId, status, legacyId, kind) =>
      StartWithEventTells(t, l, enveloped, branchId, status, legacyId, kind);
    case Invocation(roomId, l, legacyId, kind) => InvokeTells(t, roomId, l, legacyId, kind);
    case TaskStart(k, expected, l, legacyId) => StartTaskTells(t, k, expected, l, legacyId);
    case TaskOpening(_, _) =>
  }

  lemma StepTells(t: Tables, a: Action)
    requires Inv(t) && Told(t.runs, t.log) && Permitted(t, a)
    ensures Told(After(t, a).runs, After(t, a).log)
  {
    hide Told, Inv;
    if Apply(t, a).Ok? {
      match a
      case Completion(answer, notes, expected, message, now) => CompleteTells(t, answer, notes, expected, message, now);
      case Termination(x, status, notes, settlement, decided, lease, now) =>
        TerminalizeTells(t, x, status, notes, settlement, decided, lease, now);
      case LoneSettlement(e, v) => SettleAloneTells(t, e, v);
      case LeaseAdvance(runId, state, lease, user, expected) => AdvanceTells(t, runId, state, lease, user, expected);
      case AttemptSpend(runId, expected) => OpenRunsTell(t, SpendAttempt(t, runId, expected).runs);
      case Posting(messageId, m) => PostedTells(t, messageId, m);
      case TaskTransition(_, _, _) =>
      case StatusUpdate(_, _, _) =>
      case _ => StartTells(t, a);
    }
  }

  /** In every reachable state a settled run has exactly one settlement event, with its reason, and an open one none. */
  lemma {:induction false} EachSettlementIsToldOnce(actions: seq<Action>, e: string)
    requires Lawful(actions)
    ensures Told(Run(actions).runs, Run(actions).log)
    ensures Reasons(Run(actions).log, e) == Due(Run(actions).runs, e)
  {
    if actions != [] {
      var shorter := actions[..|actions| - 1];
      EachSettlementIsToldOnce(shorter, e);
      EveryRunIsSound(shorter);
      StepTells(Run(shorter), actions[|actions| - 1]);
    }
  }
}
