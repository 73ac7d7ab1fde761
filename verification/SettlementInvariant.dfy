/** What every reachable state of the kernel's tables satisfies, and that every permitted step keeps it. */
module SettlementInvariant {
  import opened Prelude
  import A = AgentTasks
  import opened Settlement

  // ---- The invariant, one table pair at a time

  /** Foreign keys and room triggers. */
  ghost predicate Linked(executions: map<string, Execution>, sessions: map<string, Session>,
                         branches: map<string, Branch>, legacy: map<string, string>)
  {
    && (forall e <- executions :: executions[e].sessionId in sessions && executions[e].branchId in branches)
    && (forall r <- legacy :: legacy[r] in branches && !branches[legacy[r]].managed && branches[legacy[r]].roomId == r)
  }

  /** An execution has an output exactly when it is COMPLETED. */
  ghost predicate OutputsMatch(executions: map<string, Execution>, outputs: map<string, Output>) {
    && outputs.Keys <= executions.Keys
    && forall e <- executions :: e in outputs <==> executions[e].status.Completed?
  }

  /** An envelope belongs to an execution, is SETTLED exactly when it says why and when, and is SETTLED once that ended. */
  ghost predicate RunsMatch(executions: map<string, Execution>, runs: map<string, AgentRun>) {
    && runs.Keys <= executions.Keys
    && (forall e <- runs :: runs[e].state.Settled? <==> runs[e].settlement.Some?)
    && (forall e <- runs :: runs[e].state.Settled? <==> runs[e].settledAt.Some?)
    && (forall e <- runs :: Ended(executions[e].status) ==> runs[e].state.Settled?)
  }

  /** A managed branch is terminal exactly when its executions are, with the status they derive. */
  ghost predicate Derived(executions: map<string, Execution>, branch: Branch, b: string) {
    if branch.managed then
      && HasRuns(executions, b)
      && (Finished(branch.status) <==> AllEnded(executions, b))
      && (Finished(branch.status) ==> branch.status == Outcome(executions, b))
    else branch.status.Running?
  }

  ghost predicate BranchesDerived(executions: map<string, Execution>, branches: map<string, Branch>) {
    forall b <- branches :: Derived(executions, branches[b], b)
  }

  /** An ACTIVE turn lock names a managed branch of its room that is not terminal. */
  ghost predicate LocksLive(branches: map<string, Branch>, locks: map<string, TurnLock>) {
    forall r <- locks :: && locks[r].branchId in branches
                         && branches[locks[r].branchId].roomId == r
                         && branches[locks[r].branchId].managed
                         && !Finished(branches[locks[r].branchId].status)
  }

  /** The terminal statuses a log announces for a branch, in order. */
  function Finishes(log: seq<Entry>, b: string): seq<BranchStatus> {
    if log == [] then []
    else
      var fact := log[|log| - 1].fact;
      Finishes(log[..|log| - 1], b)
      + if fact.BranchFinished? && fact.branchId == b then [fact.status] else []
  }

  function Owed(branches: map<string, Branch>, b: string): seq<BranchStatus> {
    if b in branches && Finished(branches[b].status) then [branches[b].status] else []
  }

  /** Exactly one terminal event per terminal branch, carrying its status, and none for any other. */
  ghost predicate Announced(branches: map<string, Branch>, log: seq<Entry>) {
    forall b: string :: Finishes(log, b) == Owed(branches, b)
  }

  /** The execution a task is attached to links back, and once its run is settled the task has ended. */
  ghost predicate Attached(k: string, task: Task, executions: map<string, Execution>, runs: map<string, AgentRun>) {
    task.executionId.Some? ==>
      && task.executionId.value in executions
      && executions[task.executionId.value].taskId == Some(k)
      && task.executionId.value in runs
      && !task.state.Submitted?
      && (runs[task.executionId.value].state.Settled? ==> A.Terminal(task.state))
  }

  ghost predicate TasksFollow(tasks: map<string, Task>, executions: map<string, Execution>, runs: map<string, AgentRun>) {
    forall k <- tasks :: Attached(k, tasks[k], executions, runs)
  }

  ghost predicate Inv(t: Tables) {
    && Linked(t.executions, t.sessions, t.branches, t.legacy)
    && OutputsMatch(t.executions, t.outputs)
    && RunsMatch(t.executions, t.runs)
    && BranchesDerived(t.executions, t.branches)
    && LocksLive(t.branches, t.locks)
    && Announced(t.branches, t.log)
    && TasksFollow(t.tasks, t.executions, t.runs)
  }

  // ---- The log

  lemma {:induction false} FinishesAppend(log: seq<Entry>, more: seq<Entry>, b: string)
    ensures Finishes(log + more, b) == Finishes(log, b) + Finishes(more, b)
  {
    if more == [] {
      assert log + more == log;
    } else {
      FinishesAppend(log, more[..|more| - 1], b);
      assert (log + more)[..|log + more| - 1] == log + more[..|more| - 1];
    }
  }

  ghost predicate Quiet(entries: seq<Entry>) {
    forall i :: 0 <= i < |entries| ==> !entries[i].fact.BranchFinished?
  }

  lemma {:induction false} QuietFinishes(entries: seq<Entry>, b: string)
    requires Quiet(entries)
    ensures Finishes(entries, b) == []
  {
    if entries != [] {
      QuietFinishes(entries[..|entries| - 1], b);
    }
  }

  lemma QuietKeepsAnnounced(branches: map<string, Branch>, log: seq<Entry>, more: seq<Entry>)
    requires Announced(branches, log) && Quiet(more)
    ensures Announced(branches, log + more)
  {
    forall b: string ensures Finishes(log + more, b) == Finishes(log, b) {
      FinishesAppend(log, more, b);
      QuietFinishes(more, b);
    }
  }

  // ---- Settling a task and a run

  /** What SettleTask leaves: at most its own task and conversation changed. */
  ghost predicate TaskSettled(t: Tables, executionId: string, settlement: RunSettlement, w: Written) {
    var task := TaskFor(t, executionId);
    && w.tables == t.(tasks := w.tables.tasks, taskMessages := w.tables.taskMessages)
    && Quiet(w.entries)
    && if task.None? || A.Terminal(t.tasks[task.value].state) then w.tables == t && w.entries == []
       else
         && task.value in w.tables.tasks
         && w.tables.tasks == t.tasks[task.value := w.tables.tasks[task.value]]
         && w.tables.tasks[task.value].executionId == t.tasks[task.value].executionId
         && A.Terminal(w.tables.tasks[task.value].state)
  }

  function WithTaskState(t: Tables, k: string, state: A.TaskState): Tables
    requires k in t.tasks
  {
    t.(tasks := t.tasks[k := t.tasks[k].(state := state)])
  }

  predicate Unsettled(t: Tables, executionId: string) {
    var task := TaskFor(t, executionId);
    task.Some? && !A.Terminal(t.tasks[task.value].state)
  }

  lemma SettleUnanswered(t: Tables, executionId: string, settlement: RunSettlement)
    requires Unsettled(t, executionId) && !(settlement.EndTurn? && executionId in t.outputs)
    ensures var k := TaskFor(t, executionId).value;
            var target := TaskTarget(t.tasks[k].state, settlement, false);
            SettleTask(t, executionId, settlement)
            == if target !in A.LegalTransitions(t.tasks[k].state) then Err(DomainError)
               else Ok(Written(WithTaskState(t, k, target), [Entry(t.tasks[k].roomId, TaskMoved(k, target))]))
  {
  }

  lemma TransitionMoves(t: Tables, k: string, target: A.TaskState)
    requires k in t.tasks && target in A.LegalTransitions(t.tasks[k].state)
    ensures TransitionTask(t, k, t.tasks[k].state, target) == Ok(WithTaskState(t, k, target))
  {
  }

  lemma StatesTwice(t: Tables, k: string, one: A.TaskState, message: TaskMessage, two: A.TaskState)
    requires k in t.tasks
    ensures WithTaskState(SayTo(WithTaskState(t, k, one), k, message), k, two) == WithTaskState(SayTo(t, k, message), k, two)
  {
    var t1 := WithTaskState(t, k, one);
    assert t1.tasks[k := t1.tasks[k].(state := two)] == t.tasks[k := t.tasks[k].(state := two)];
  }

  lemma SettleStarted(t: Tables, executionId: string)
    requires Unsettled(t, executionId) && executionId in t.outputs
    requires !t.tasks[TaskFor(t, executionId).value].state.Working?
    ensures var k := TaskFor(t, executionId).value;
            var room := t.tasks[k].roomId;
            SettleTask(t, executionId, EndTurn)
            == Ok(Written(WithTaskState(SayTo(t, k, DelegateSays(t.outputs[executionId].content)), k, A.Completed),
                          [Entry(room, TaskMoved(k, A.Working))] + [Entry(room, TaskMoved(k, A.Completed))]))
  {
    var k := TaskFor(t, executionId).value;
    var message := DelegateSays(t.outputs[executionId].content);
    hide TransitionTask;
    TransitionMoves(t, k, A.Working);
    var t1 := WithTaskState(t, k, A.Working);
    TransitionMoves(SayTo(t1, k, message), k, A.Completed);
    StatesTwice(t, k, A.Working, message, A.Completed);
  }

  lemma SettleAnswered(t: Tables, executionId: string)
    requires Unsettled(t, executionId) && executionId in t.outputs
    ensures var k := TaskFor(t, executionId).value;
            var room := t.tasks[k].roomId;
            SettleTask(t, executionId, EndTurn)
            == Ok(Written(WithTaskState(SayTo(t, k, DelegateSays(t.outputs[executionId].content)), k, A.Completed),
                          (if t.tasks[k].state.Working? then [] else [Entry(room, TaskMoved(k, A.Working))])
                          + [Entry(room, TaskMoved(k, A.Completed))]))
  {
    var k := TaskFor(t, executionId).value;
    if t.tasks[k].state.Working? {
      TransitionMoves(SayTo(t, k, DelegateSays(t.outputs[executionId].content)), k, A.Completed);
    } else {
      SettleStarted(t, executionId);
      hide SettleTask;
    }
  }

  lemma SettleTaskMeans(t: Tables, executionId: string, settlement: RunSettlement)
    requires SettleTask(t, executionId, settlement).Ok?
    ensures TaskSettled(t, executionId, settlement, SettleTask(t, executionId, settlement).value)
  {
    if Unsettled(t, executionId) {
      if settlement.EndTurn? && executionId in t.outputs {
        SettleAnswered(t, executionId);
      } else {
        SettleUnanswered(t, executionId, settlement);
      }
    }
  }

  /** What Settle leaves: an open run becomes settled and its task follows; otherwise nothing changes. */
  ghost predicate RunSettledBy(t: Tables, e: string, v: Verdict, w: Written) {
    && w.tables == t.(runs := w.tables.runs, tasks := w.tables.tasks, taskMessages := w.tables.taskMessages)
    && Quiet(w.entries)
    && if !RunOpen(t, e) then w == Written(t, [])
       else
         && w.tables.runs == t.runs[e := SettledRun(t.runs[e], v)]
         && if Unsettled(t, e) then
              var k := TaskFor(t, e).value;
              && k in w.tables.tasks
              && w.tables.tasks == t.tasks[k := w.tables.tasks[k]]
              && w.tables.tasks[k].executionId == t.tasks[k].executionId
              && A.Terminal(w.tables.tasks[k].state)
            else w.tables.tasks == t.tasks && w.tables.taskMessages == t.taskMessages
  }

  lemma SettleMeans(t: Tables, e: string, v: Verdict)
    requires Settle(t, e, v).Ok?
    ensures RunSettledBy(t, e, v, Settle(t, e, v).value)
  {
    if RunOpen(t, e) {
      var t1 := t.(runs := t.runs[e := SettledRun(t.runs[e], v)]);
      SettleTaskMeans(t1, e, v.settlement);
      assert TaskFor(t1, e) == TaskFor(t, e);
    }
  }

  /** The executions after e alone ended. */
  ghost predicate EndedAt(before: map<string, Execution>, after: map<string, Execution>, e: string) {
    && e in before && !Ended(before[e].status)
    && e in after && Ended(after[e].status)
    && after == before[e := before[e].(status := after[e].status)]
  }

  lemma EndedRunsMatch(before: map<string, Execution>, u: Tables, e: string, v: Verdict, w: Written)
    requires RunsMatch(before, u.runs) && RunSettledBy(u, e, v, w)
    requires u.executions == before || EndedAt(before, u.executions, e)
    ensures RunsMatch(u.executions, w.tables.runs)
  {
  }

  lemma EndedTasksFollow(before: map<string, Execution>, u: Tables, e: string, v: Verdict, w: Written)
    requires TasksFollow(u.tasks, before, u.runs) && RunSettledBy(u, e, v, w)
    requires u.executions == before || EndedAt(before, u.executions, e)
    ensures TasksFollow(w.tables.tasks, u.executions, w.tables.runs)
  {
    forall k | k in w.tables.tasks ensures Attached(k, w.tables.tasks[k], u.executions, w.tables.runs) {
      assert k in u.tasks && Attached(k, u.tasks[k], before, u.runs);
      assert w.tables.tasks[k].executionId == u.tasks[k].executionId;
      if u.tasks[k].executionId == Some(e) {
        assert TaskFor(u, e) == Some(k);
      }
    }
  }

  // ---- Finishing a branch

  ghost predicate SameBranch(before: map<string, Execution>, after: map<string, Execution>, b: string) {
    && (forall e <- before :: OfBranch(before, b, e) ==> OfBranch(after, b, e) && after[e].status == before[e].status)
    && (forall e <- after :: OfBranch(after, b, e) ==> OfBranch(before, b, e))
  }

  lemma SameBranchDerives(before: map<string, Execution>, after: map<string, Execution>, branch: Branch, b: string)
    requires SameBranch(before, after, b)
    ensures Derived(before, branch, b) <==> Derived(after, branch, b)
  {
    assert HasRuns(before, b) <==> HasRuns(after, b) by {
      if HasRuns(after, b) {
        var e :| e in after && OfBranch(after, b, e);
        assert OfBranch(before, b, e);
      }
    }
    assert AllEnded(before, b) <==> AllEnded(after, b);
    forall s: ExecutionStatus ensures AllHave(before, b, s) <==> AllHave(after, b, s) {
    }
  }

  function Closed(branches: map<string, Branch>, b: string, outcome: BranchStatus): map<string, Branch>
    requires b in branches
  {
    branches[b := branches[b].(status := outcome)]
  }

  function Unlocked(branches: map<string, Branch>, locks: map<string, TurnLock>, b: string): map<string, TurnLock>
    requires b in branches
  {
    var room := branches[b].roomId;
    if room in locks && locks[room].branchId == b then locks - {room} else locks
  }

  /** The entries of one closing: the branch's event, then perhaps the lock's. */
  ghost predicate Closing(entries: seq<Entry>, b: string, outcome: BranchStatus) {
    && 1 <= |entries| <= 2
    && entries[0].fact == BranchFinished(b, outcome)
    && (|entries| == 2 ==> entries[1].fact.LockReleased?)
  }

  /** What FinishBranch leaves. */
  ghost predicate BranchFinishedBy(t: Tables, b: string, w: Written) {
    && w.tables == t.(branches := w.tables.branches, locks := w.tables.locks, released := w.tables.released)
    && if !Due(t, b) then w == Written(t, [])
       else
         && w.tables.branches == Closed(t.branches, b, Outcome(t.executions, b))
         && w.tables.locks == Unlocked(t.branches, t.locks, b)
         && Closing(w.entries, b, Outcome(t.executions, b))
  }

  lemma CloseMeans(t: Tables, b: string, roomId: string, outcome: BranchStatus)
    requires b in t.branches
    ensures var w := CloseBranch(t, b, roomId, outcome);
            && w.tables == t.(branches := w.tables.branches, locks := w.tables.locks, released := w.tables.released)
            && w.tables.branches == Closed(t.branches, b, outcome)
            && w.tables.locks == Unlocked(t.branches, t.locks, b)
            && Closing(w.entries, b, outcome)
  {
    assert HoldsTurn(t, b) <==> t.branches[b].roomId in t.locks && t.locks[t.branches[b].roomId].branchId == b;
    hide HoldsTurn;
  }

  lemma FinishMeans(t: Tables, b: string, roomId: string)
    ensures BranchFinishedBy(t, b, FinishBranch(t, b, roomId))
  {
    if Due(t, b) {
      CloseMeans(t, b, roomId, Outcome(t.executions, b));
    }
  }

  lemma OthersStayDerived(before: map<string, Execution>, after: map<string, Execution>, e: string,
                          branches: map<string, Branch>, b: string)
    requires BranchesDerived(before, branches) && EndedAt(before, after, e)
    requires b in branches && before[e].branchId != b
    ensures Derived(after, branches[b], b)
  {
    assert Derived(before, branches[b], b);
    SameBranchDerives(before, after, branches[b], b);
  }

  lemma OwnIsDerived(before: map<string, Execution>, after: map<string, Execution>, e: string, branch: Branch, b: string)
    requires Derived(before, branch, b) && EndedAt(before, after, e) && before[e].branchId == b
    ensures !Finished(branch.status)
    ensures branch.managed && AllEnded(after, b) ==> Derived(after, branch.(status := Outcome(after, b)), b)
    ensures !(branch.managed && AllEnded(after, b)) ==> Derived(after, branch, b)
    ensures HasRuns(after, b)
  {
    assert OfBranch(before, b, e) && OfBranch(after, b, e);
    assert !AllEnded(before, b);
  }

  lemma LocksAfterClosing(branches: map<string, Branch>, locks: map<string, TurnLock>, b: string, outcome: BranchStatus)
    requires LocksLive(branches, locks) && b in branches
    ensures LocksLive(Closed(branches, b, outcome), Unlocked(branches, locks, b))
  {
    var left := Unlocked(branches, locks, b);
    forall r | r in left ensures r in locks && left[r] == locks[r] && locks[r].branchId != b {
    }
  }

  lemma ClosingFinishes(entries: seq<Entry>, b: string, outcome: BranchStatus, other: string)
    requires Closing(entries, b, outcome)
    ensures Finishes(entries, other) == if other == b then [outcome] else []
  {
    var first := entries[..1];
    assert entries == first + entries[1..];
    FinishesAppend(first, entries[1..], other);
    QuietFinishes(entries[1..], other);
    assert first[..0] == [];
  }

  lemma OwedAfterClosing(branches: map<string, Branch>, b: string, outcome: BranchStatus, log: seq<Entry>,
                         entries: seq<Entry>, other: string)
    requires Finishes(log, other) == Owed(branches, other)
    requires b in branches && !Finished(branches[b].status) && Finished(outcome) && Closing(entries, b, outcome)
    ensures Finishes(log + entries, other) == Owed(Closed(branches, b, outcome), other)
  {
    FinishesAppend(log, entries, other);
    ClosingFinishes(entries, b, outcome, other);
  }

  lemma AnnouncedAfterClosing(branches: map<string, Branch>, b: string, outcome: BranchStatus, log: seq<Entry>,
                              entries: seq<Entry>)
    requires Announced(branches, log) && b in branches && !Finished(branches[b].status) && Finished(outcome)
    requires Closing(entries, b, outcome)
    ensures Announced(Closed(branches, b, outcome), log + entries)
  {
    forall b': string ensures Finishes(log + entries, b') == Owed(Closed(branches, b, outcome), b') {
      OwedAfterClosing(branches, b, outcome, log, entries, b');
    }
  }

  // ---- A whole ending: the execution ends, its run settles, its branch may finish

  /** The tables after e ended, before its run is settled: its output and sessions may have been written too. */
  ghost predicate EndedIn(t: Tables, u: Tables, e: string) {
    && u == t.(executions := u.executions, outputs := u.outputs, sessions := u.sessions)
    && EndedAt(t.executions, u.executions, e)
    && OutputsMatch(u.executions, u.outputs)
    && t.sessions.Keys <= u.sessions.Keys
  }

  lemma FinishKeeps(t: Tables, u: Tables, e: string, b: string, roomId: string, log: seq<Entry>)
    requires EndedAt(t.executions, u.executions, e) && t.executions[e].branchId == b && b in t.branches
    requires BranchesDerived(t.executions, t.branches) && LocksLive(t.branches, t.locks) && Announced(t.branches, log)
    requires u.branches == t.branches && u.locks == t.locks
    ensures var f := FinishBranch(u, b, roomId);
            && BranchesDerived(u.executions, f.tables.branches)
            && LocksLive(f.tables.branches, f.tables.locks)
            && Announced(f.tables.branches, log + f.entries)
  {
    var f := FinishBranch(u, b, roomId);
    FinishMeans(u, b, roomId);
    var outcome := Outcome(u.executions, b);
    OwnIsDerived(t.executions, u.executions, e, t.branches[b], b);
    forall b' | b' in f.tables.branches ensures Derived(u.executions, f.tables.branches[b'], b') {
      if b' != b {
        OthersStayDerived(t.executions, u.executions, e, t.branches, b');
      }
    }
    if Due(u, b) {
      LocksAfterClosing(t.branches, t.locks, b, outcome);
      AnnouncedAfterClosing(t.branches, b, outcome, log, f.entries);
    } else {
      assert log + f.entries == log;
    }
  }

  lemma EndSettles(t: Tables, u: Tables, e: string, v: Verdict)
    requires Inv(t) && EndedIn(t, u, e) && Settle(u, e, v).Ok?
    ensures var w := Settle(u, e, v).value;
            && w.tables == u.(runs := w.tables.runs, tasks := w.tables.tasks, taskMessages := w.tables.taskMessages)
            && RunsMatch(u.executions, w.tables.runs)
            && TasksFollow(w.tables.tasks, u.executions, w.tables.runs)
            && Quiet(w.entries)
  {
    var w := Settle(u, e, v).value;
    SettleMeans(u, e, v);
    EndedRunsMatch(t.executions, u, e, v, w);
    EndedTasksFollow(t.executions, u, e, v, w);
  }

  lemma FinishKeepsLinks(executions: map<string, Execution>, sessions: map<string, Session>, w: Tables, b: string,
                         roomId: string)
    requires Linked(executions, sessions, w.branches, w.legacy)
    ensures var f := FinishBranch(w, b, roomId).tables;
            Linked(executions, sessions, f.branches, f.legacy)
  {
    FinishMeans(w, b, roomId);
  }

  lemma EndKeeps(t: Tables, u: Tables, e: string, b: string, v: Verdict, roomId: string, notes: seq<Entry>)
    requires Inv(t) && EndedIn(t, u, e) && t.executions[e].branchId == b && Quiet(notes)
    requires Settle(u, e, v).Ok?
    ensures var w := Settle(u, e, v).value;
            var f := FinishBranch(w.tables, b, roomId);
            Inv(Append(f.tables, notes + w.entries + f.entries))
  {
    EndSettles(t, u, e, v);
    var w := Settle(u, e, v).value;
    var entries := notes + w.entries;
    QuietKeepsAnnounced(t.branches, t.log, entries);
    FinishKeeps(t, w.tables, e, b, roomId, t.log + entries);
    FinishKeepsLinks(u.executions, u.sessions, w.tables, b, roomId);
    FinishMeans(w.tables, b, roomId);
    var f := FinishBranch(w.tables, b, roomId);
    assert t.log + entries + f.entries == t.log + (entries + f.entries);
  }

  // ---- Launching

  ghost predicate Extends<V>(before: map<string, V>, after: map<string, V>) {
    forall k <- before :: k in after && after[k] == before[k]
  }

  /** New executions, none of them ended, joined branch b, each new envelope an open one around a new execution. */
  ghost predicate Grown(t: Tables, u: Tables, b: string) {
    && u == t.(sessions := u.sessions, executions := u.executions, runs := u.runs)
    && t.sessions.Keys <= u.sessions.Keys
    && Extends(t.executions, u.executions)
    && Extends(t.runs, u.runs)
    && (forall e <- u.executions :: e in t.executions || Fresh(u.executions[e], u.sessions, b))
    && (forall e <- u.runs :: e in t.runs || (e in u.executions && e !in t.executions && JustOpened(u.runs[e])))
  }

  ghost predicate Fresh(x: Execution, sessions: map<string, Session>, b: string) {
    !Ended(x.status) && x.branchId == b && x.sessionId in sessions
  }

  ghost predicate JustOpened(run: AgentRun) {
    run.state.Starting? && run.settlement.None? && run.settledAt.None?
  }

  lemma LaunchGrows(t: Tables, b: string, roomId: string, l: Launch)
    requires LaunchIn(t, b, roomId, l).Ok?
    ensures var u := LaunchIn(t, b, roomId, l).value;
            && Grown(t, u, b)
            && l.executionId in u.executions && l.executionId !in t.executions && l.executionId in u.runs
            && u.executions[l.executionId].taskId == l.taskId
  {
  }

  lemma GrownTwice(t: Tables, u: Tables, w: Tables, b: string)
    requires Grown(t, u, b) && Grown(u, w, b)
    ensures Grown(t, w, b)
  {
    forall e | e in w.executions && e !in t.executions ensures Fresh(w.executions[e], w.sessions, b) {
      assert e in u.executions ==> Fresh(u.executions[e], u.sessions, b);
    }
  }

  lemma {:induction false} LaunchAllGrows(t: Tables, b: string, roomId: string, launches: seq<Launch>)
    requires LaunchAll(t, b, roomId, launches).Ok?
    ensures var u := LaunchAll(t, b, roomId, launches).value;
            && Grown(t, u, b)
            && (launches != [] ==> exists e <- u.executions :: e !in t.executions)
  {
    if launches != [] {
      var n := |launches| - 1;
      LaunchAllGrows(t, b, roomId, launches[..n]);
      var u := LaunchAll(t, b, roomId, launches[..n]).value;
      LaunchGrows(u, b, roomId, launches[n]);
      GrownTwice(t, u, LaunchAll(t, b, roomId, launches).value, b);
      assert launches[n].executionId !in u.executions;
    }
  }

  lemma GrownKeepsTables(t: Tables, u: Tables, b: string)
    requires Linked(t.executions, t.sessions, t.branches, t.legacy) && b in t.branches
    requires OutputsMatch(t.executions, t.outputs) && RunsMatch(t.executions, t.runs) && Grown(t, u, b)
    ensures Linked(u.executions, u.sessions, u.branches, u.legacy)
    ensures OutputsMatch(u.executions, u.outputs) && RunsMatch(u.executions, u.runs)
  {
  }

  lemma GrownKeepsTasks(t: Tables, u: Tables, b: string)
    requires TasksFollow(t.tasks, t.executions, t.runs) && Grown(t, u, b)
    ensures TasksFollow(u.tasks, u.executions, u.runs)
  {
    forall k | k in u.tasks ensures Attached(k, u.tasks[k], u.executions, u.runs) {
      assert Attached(k, t.tasks[k], t.executions, t.runs);
    }
  }

  /** Branches other than b do not notice; b must be unmanaged, or have no terminal status and a new execution. */
  lemma GrownKeepsBranches(t: Tables, u: Tables, b: string)
    requires BranchesDerived(t.executions, t.branches - {b}) && Grown(t, u, b) && b in t.branches
    requires t.branches[b].status.Running?
    requires t.branches[b].managed ==> exists e <- u.executions :: e !in t.executions
    ensures BranchesDerived(u.executions, u.branches)
  {
    forall b' | b' in u.branches ensures Derived(u.executions, u.branches[b'], b') {
      if b' != b {
        assert b' in t.branches - {b} && Derived(t.executions, t.branches[b'], b');
        assert SameBranch(t.executions, u.executions, b');
        SameBranchDerives(t.executions, u.executions, u.branches[b'], b');
      } else if u.branches[b].managed {
        var e :| e in u.executions && e !in t.executions;
        assert OfBranch(u.executions, b, e) && !Ended(u.executions[e].status);
      }
    }
  }
}
