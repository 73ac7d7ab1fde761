/**
 Delegation chains and the principals that bound a run (src/multiplayer/domain/agent_tasks.py,
 src/multiplayer/db/repositories.py, src/multiplayer/security/capabilities.py).
 */
module Delegation {
  import opened Prelude

  const MAX_DELEGATION_DEPTH := 4

  datatype Refusal = TaskNotFound | DelegationCycle | DelegationDepthExceeded | IntegrityError

  /** parent is None for a task a human opened; chain is agent_task_chain by position, root first. */
  datatype Task = Task(target: string, parent: Option<string>, chain: seq<string>, depth: nat, authorizedBy: string,
                       requestedBy: string)

  /** A principal is a human, or an agent of the chain. */
  datatype Principal = Human(userId: string) | Agent(agentId: string)

  /**
   An execution with the humans who acted on it and those who steered it. carried is the task id in its input data,
   where only the start of a task's run puts one.
   */
  datatype Run = Run(taskId: Option<string>, carried: Option<string>, authorizedBy: string, callers: set<string>,
                     steerers: set<string>)

  datatype State = State(tasks: map<string, Task>, runs: map<string, Run>)

  const EMPTY := State(map[], map[])

  predicate Distinct(s: seq<string>) {
    forall i, j :: 0 <= i < j < |s| ==> s[i] != s[j]
  }

  /** require_delegable: the depth of the new task, or why it may not be. */
  function RequireDelegable(ancestry: seq<string>, target: string): Result<nat, Refusal> {
    if target in ancestry then Err(DelegationCycle)
    else if |ancestry| > MAX_DELEGATION_DEPTH then Err(DelegationDepthExceeded)
    else Ok(|ancestry|)
  }

  /** create_in_transaction: the depth written is the length of the chain written. new_id draws no empty id. */
  function Create(s: State, id: string, task: Task): Result<State, Refusal> {
    if !Distinct(task.chain) then Err(DelegationCycle)
    else if id == "" || id in s.tasks then Err(IntegrityError)
    else Ok(s.(tasks := s.tasks[id := task.(depth := |task.chain|)]))
  }

  /** Opening a task: by a human with no parent, else under the parent, whose chain and root human it inherits. */
  function Open(s: State, id: string, parent: Option<string>, target: string, requestedBy: string): Result<State, Refusal> {
    if parent.Some? && parent.value !in s.tasks then Err(TaskNotFound)
    else
      var ancestry := if parent.None? then [] else s.tasks[parent.value].chain + [s.tasks[parent.value].target];
      var authorizedBy := if parent.None? then requestedBy else s.tasks[parent.value].authorizedBy;
      var depth :- RequireDelegable(ancestry, target);
      Create(s, id, Task(target, parent, ancestry, depth, authorizedBy, requestedBy))
  }

  /** record_caller, which ignores an empty name. */
  function WithCaller(callers: set<string>, userId: string): set<string> {
    if userId == "" then callers else callers + {userId}
  }

  /** Execution.__post_init__: an execution built without its task takes it from its input data. */
  function Built(run: Run): Run {
    if run.taskId.None? && run.carried.Some? && run.carried.value != "" then run.(taskId := run.carried) else run
  }

  /** executions.agent_task_id is a foreign key. */
  function Insert(s: State, runId: string, run: Run): State {
    if runId in s.runs || (Built(run).taskId.Some? && Built(run).taskId.value !in s.tasks) then s
    else s.(runs := s.runs[runId := Built(run)])
  }

  /** resume_agent_run: a new run on the earlier one's input, which names no task itself. */
  function Resumed(earlier: Run, userId: string): Run {
    Run(None, earlier.carried, if earlier.taskId.Some? then earlier.authorizedBy else userId, WithCaller({}, userId), {})
  }

  datatype Action =
    | OpenTask(id: string, parent: Option<string>, target: string, requestedBy: string)
    | StartRun(runId: string, taskId: string)
    | StartOwn(runId: string, userId: string)
    | Resume(runId: string, earlier: string, userId: string)
    | RecordCaller(runId: string, userId: string)
    | Steer(runId: string, userId: string)

  function After(s: State, a: Action): State {
    match a
    case OpenTask(id, parent, target, requestedBy) =>
      (match Open(s, id, parent, target, requestedBy)
       case Ok(next) => next
       case Err(_) => s)
    case StartRun(runId, taskId) =>
      if taskId !in s.tasks then s
      else
        var task := s.tasks[taskId];
        Insert(s, runId, Run(Some(taskId), Some(taskId), task.authorizedBy, WithCaller({}, task.requestedBy), {}))
    case StartOwn(runId, userId) => Insert(s, runId, Run(None, None, userId, {}, {}))
    case Resume(runId, earlier, userId) =>
      if earlier !in s.runs then s else Insert(s, runId, Resumed(s.runs[earlier], userId))
    case RecordCaller(runId, userId) =>
      if runId !in s.runs then s
      else s.(runs := s.runs[runId := s.runs[runId].(callers := WithCaller(s.runs[runId].callers, userId))])
    case Steer(runId, userId) =>
      if runId !in s.runs then s
      else s.(runs := s.runs[runId := s.runs[runId].(steerers := s.runs[runId].steerers + {userId})])
  }

  function RunAll(actions: seq<Action>): State {
    if actions == [] then EMPTY else After(RunAll(actions[..|actions| - 1]), actions[|actions| - 1])
  }

  // ---- Chains

  /** A stored chain is its parent's, then the parent's target; it repeats no agent, nor its own target. */
  ghost predicate Chained(tasks: map<string, Task>, task: Task) {
    && Distinct(task.chain + [task.target])
    && task.depth == |task.chain| <= MAX_DELEGATION_DEPTH
    && match task.parent
       case None => task.chain == [] && task.authorizedBy == task.requestedBy
       case Some(p) =>
         && p in tasks
         && task.chain == tasks[p].chain + [tasks[p].target]
         && task.authorizedBy == tasks[p].authorizedBy
  }

  /** A run with a task still carries it, and is authorized by the human at the root of its chain. */
  ghost predicate Linked(tasks: map<string, Task>, run: Run) {
    && run.carried == run.taskId
    && (run.taskId.Some? ==> && run.taskId.value in tasks
                             && run.authorizedBy == tasks[run.taskId.value].authorizedBy)
  }

  ghost predicate Forest(s: State) {
    && "" !in s.tasks
    && (forall id <- s.tasks :: Chained(s.tasks, s.tasks[id]))
    && (forall r <- s.runs :: Linked(s.tasks, s.runs[r]))
  }

  lemma OpenKeeps(s: State, id: string, parent: Option<string>, target: string, requestedBy: string)
    requires Forest(s) && Open(s, id, parent, target, requestedBy).Ok?
    ensures Forest(Open(s, id, parent, target, requestedBy).value)
  {
    var u := Open(s, id, parent, target, requestedBy).value;
    var task := u.tasks[id];
    assert Distinct(task.chain + [task.target]);
    forall k | k in u.tasks ensures Chained(u.tasks, u.tasks[k]) {
      assert k != id ==> Chained(s.tasks, s.tasks[k]);
    }
  }

  lemma InsertKeeps(s: State, runId: string, run: Run)
    requires Forest(s) && Linked(s.tasks, Built(run))
    ensures Forest(Insert(s, runId, run))
  {
  }

  lemma StepKeeps(s: State, a: Action)
    requires Forest(s)
    ensures Forest(After(s, a))
  {
    match a
    case OpenTask(id, parent, target, requestedBy) =>
      if Open(s, id, parent, target, requestedBy).Ok? {
        OpenKeeps(s, id, parent, target, requestedBy);
      }
    case Resume(runId, earlier, userId) =>
      if earlier in s.runs {
        InsertKeeps(s, runId, Resumed(s.runs[earlier], userId));
      }
    case _ =>
  }

  lemma {:induction false} EveryForestIsChained(actions: seq<Action>)
    ensures Forest(RunAll(actions))
  {
    if actions != [] {
      EveryForestIsChained(actions[..|actions| - 1]);
      StepKeeps(RunAll(actions[..|actions| - 1]), actions[|actions| - 1]);
    }
  }

  /** Walking parents from a task, n steps at most: the targets met, root first, and where the walk ends. */
  function Walk(tasks: map<string, Task>, id: string, n: nat): (seq<string>, string)
    decreases n
  {
    if n == 0 || id !in tasks || tasks[id].parent.None? then ([], id)
    else
      var p := tasks[id].parent.value;
      var (above, root) := Walk(tasks, p, n - 1);
      (above + [if p in tasks then tasks[p].target else ""], root)
  }

  /**
   What is stored is what a walk would find: the chain names every ancestor's agent, root first, the walk ends
   within the permitted depth at a task a human opened, and the same human authorizes every task on the way.
   */
  lemma {:induction false} ChainIsTheWalk(s: State, id: string, n: nat)
    requires Forest(s) && id in s.tasks && |s.tasks[id].chain| <= n
    ensures var (agents, root) := Walk(s.tasks, id, n);
            && agents == s.tasks[id].chain
            && root in s.tasks && s.tasks[root].parent.None?
            && s.tasks[root].authorizedBy == s.tasks[id].authorizedBy
    decreases n
  {
    assert Chained(s.tasks, s.tasks[id]);
    if s.tasks[id].parent.Some? {
      ChainIsTheWalk(s, s.tasks[id].parent.value, n - 1);
    }
  }

  /** In every reachable forest a chain with its target repeats no agent, its depth is its length and at most four, and the walk bears it out. */
  lemma DelegationIsBounded(actions: seq<Action>, id: string)
    requires id in RunAll(actions).tasks
    ensures var s := RunAll(actions);
            var task := s.tasks[id];
            && Distinct(task.chain + [task.target])
            && task.depth == |task.chain| <= MAX_DELEGATION_DEPTH
            && Walk(s.tasks, id, MAX_DELEGATION_DEPTH).0 == task.chain
            && Walk(s.tasks, id, MAX_DELEGATION_DEPTH).1 in s.tasks
            && s.tasks[Walk(s.tasks, id, MAX_DELEGATION_DEPTH).1].parent.None?
            && s.tasks[Walk(s.tasks, id, MAX_DELEGATION_DEPTH).1].authorizedBy == task.authorizedBy
  {
    EveryForestIsChained(actions);
    assert Chained(RunAll(actions).tasks, RunAll(actions).tasks[id]);
    ChainIsTheWalk(RunAll(actions), id, MAX_DELEGATION_DEPTH);
  }

  // ---- What bounds a run

  function ChainOf(s: State, run: Run): seq<string> {
    if run.taskId.Some? && run.taskId.value in s.tasks then s.tasks[run.taskId.value].chain else []
  }

  /** bounding_principals: one union of everyone who left a row against the run. */
  predicate Bounds(s: State, runId: string, p: Principal)
    requires runId in s.runs
  {
    var run := s.runs[runId];
    match p
    case Human(u) => u == run.authorizedBy || u in run.callers || u in run.steerers
    case Agent(a) => a in ChainOf(s, run)
  }

  /** The user term: what every principal of the run holds. holds is the membership read at the time. */
  ghost predicate Granted(s: State, runId: string, holds: (Principal, string) -> bool, capability: string)
    requires runId in s.runs
  {
    forall p: Principal :: Bounds(s, runId, p) ==> holds(p, capability)
  }

  lemma TasksStay(s: State, a: Action, id: string)
    requires id in s.tasks
    ensures id in After(s, a).tasks && After(s, a).tasks[id] == s.tasks[id]
  {
  }

  lemma RunsGrow(s: State, a: Action, runId: string)
    requires runId in s.runs
    ensures runId in After(s, a).runs
    ensures var before, after := s.runs[runId], After(s, a).runs[runId];
            && after.taskId == before.taskId && after.authorizedBy == before.authorizedBy
            && before.callers <= after.callers && before.steerers <= after.steerers
  {
  }

  /** No step drops a principal of a run or changes a task. */
  lemma StepOnlyNarrows(s: State, a: Action, runId: string)
    requires Forest(s) && runId in s.runs
    ensures runId in After(s, a).runs
    ensures forall p: Principal :: Bounds(s, runId, p) ==> Bounds(After(s, a), runId, p)
    ensures forall id <- s.tasks :: id in After(s, a).tasks && After(s, a).tasks[id] == s.tasks[id]
  {
    RunsGrow(s, a, runId);
    forall id <- s.tasks ensures id in After(s, a).tasks && After(s, a).tasks[id] == s.tasks[id] {
      TasksStay(s, a, id);
    }
    hide After;
  }

  // ---- Who a step records

  /** Who bounds a run that a step has just started. */
  ghost predicate Starts(s: State, a: Action, p: Principal) {
    match a
    case StartRun(_, id) =>
      && id in s.tasks
      && (match p
          case Human(u) => u == s.tasks[id].authorizedBy || (u != "" && u == s.tasks[id].requestedBy)
          case Agent(g) => g in s.tasks[id].chain)
    case StartOwn(_, userId) => p == Human(userId)
    case Resume(_, earlier, userId) =>
      && earlier in s.runs
      && var k := s.runs[earlier].taskId;
         (match p
          case Human(u) => u == (if k.Some? then s.runs[earlier].authorizedBy else userId) || (u != "" && u == userId)
          case Agent(g) => k.Some? && k.value in s.tasks && g in s.tasks[k.value].chain)
    case _ => false
  }

  /** A task's run, a human's own run, or the resumption of a run that is there. */
  ghost predicate Started(s: State, a: Action, runId: string) {
    match a
    case StartRun(r, id) => r == runId && id in s.tasks
    case StartOwn(r, _) => r == runId
    case Resume(r, earlier, _) => r == runId && earlier in s.runs
    case _ => false
  }

  /**
   A step binds exactly whom it should. A new run: the root's human and the task's asker and agents; the human it is for;
   or the earlier run's humans and agents as a resume has them. A run that is there: one more caller, unless unnamed,
   one more steerer, or nobody.
   */
  lemma StepBindsExactly(s: State, a: Action, runId: string, p: Principal)
    requires Forest(s)
    ensures var u := After(s, a);
            && (runId in u.runs <==> runId in s.runs || Started(s, a, runId))
            && (runId in s.runs ==>
                  (Bounds(u, runId, p) <==> || Bounds(s, runId, p)
                                            || (a.RecordCaller? && a.runId == runId && a.userId != "" && p == Human(a.userId))
                                            || (a.Steer? && a.runId == runId && p == Human(a.userId))))
            && (runId !in s.runs && Started(s, a, runId) ==> (Bounds(u, runId, p) <==> Starts(s, a, p)))
  {
    if runId in s.runs {
      StandingRunBinds(s, a, runId, p);
    } else {
      NewRunBinds(s, a, runId, p);
    }
    hide After, Bounds, Starts, Started;
  }

  lemma StandingRunBinds(s: State, a: Action, runId: string, p: Principal)
    requires Forest(s) && runId in s.runs
    ensures runId in After(s, a).runs
    ensures Bounds(After(s, a), runId, p)
            <==> || Bounds(s, runId, p)
                 || (a.RecordCaller? && a.runId == runId && a.userId != "" && p == Human(a.userId))
                 || (a.Steer? && a.runId == runId && p == Human(a.userId))
  {
    assert Linked(s.tasks, s.runs[runId]);
    RunsGrow(s, a, runId);
  }

  lemma NewRunBinds(s: State, a: Action, runId: string, p: Principal)
    requires Forest(s) && runId !in s.runs
    ensures runId in After(s, a).runs <==> Started(s, a, runId)
    ensures runId in After(s, a).runs ==> (Bounds(After(s, a), runId, p) <==> Starts(s, a, p))
  {
    if a.Resume? && a.earlier in s.runs {
      assert Linked(s.tasks, s.runs[a.earlier]);
    }
  }

  /**
   A task opens exactly under a parent that is there, or none, for an agent that is not above it, at most four deep and
   under a new id; it then has the agents above it and the human at the root.
   */
  lemma OpensExactly(s: State, id: string, parent: Option<string>, target: string, requestedBy: string)
    requires Forest(s)
    ensures var u := After(s, OpenTask(id, parent, target, requestedBy));
            var above := if parent.Some? && parent.value in s.tasks then s.tasks[parent.value].chain + [s.tasks[parent.value].target]
                         else [];
            if && (parent.Some? ==> parent.value in s.tasks) && target !in above && |above| <= 4 && id != "" && id !in s.tasks
            then u == s.(tasks := s.tasks[id := Task(target, parent, above, |above|,
                                                     if parent.Some? then s.tasks[parent.value].authorizedBy else requestedBy,
                                                     requestedBy)])
            else u == s
  {
    if parent.Some? && parent.value in s.tasks {
      assert Chained(s.tasks, s.tasks[parent.value]);
    }
  }

  /** For fixed memberships, what a run may spend only narrows as it goes on. */
  lemma {:induction false} GrantOnlyNarrows(actions: seq<Action>, n: nat, runId: string,
                                            holds: (Principal, string) -> bool, capability: string)
    requires n <= |actions| && runId in RunAll(actions[..n]).runs
    ensures runId in RunAll(actions).runs
    ensures Granted(RunAll(actions), runId, holds, capability) ==> Granted(RunAll(actions[..n]), runId, holds, capability)
  {
    if n == |actions| {
      assert actions[..n] == actions;
    } else {
      var shorter := actions[..|actions| - 1];
      assert shorter[..n] == actions[..n];
      GrantOnlyNarrows(shorter, n, runId, holds, capability);
      EveryForestIsChained(shorter);
      StepOnlyNarrows(RunAll(shorter), actions[|actions| - 1], runId);
    }
  }

  /** The task n parents up. */
  function Up(tasks: map<string, Task>, id: string, n: nat): string
    decreases n
  {
    if n == 0 || id !in tasks || tasks[id].parent.None? then id else Up(tasks, tasks[id].parent.value, n - 1)
  }

  lemma {:induction false} UpIsInTheChain(s: State, id: string, n: nat)
    requires Forest(s) && id in s.tasks
    ensures var above := Up(s.tasks, id, n);
            && above in s.tasks && s.tasks[above].authorizedBy == s.tasks[id].authorizedBy
            && s.tasks[above].chain <= s.tasks[id].chain
            && (above == id || s.tasks[above].target in s.tasks[id].chain)
    decreases n
  {
    assert Chained(s.tasks, s.tasks[id]);
    if n > 0 && s.tasks[id].parent.Some? {
      UpIsInTheChain(s, s.tasks[id].parent.value, n - 1);
    }
  }

  /** However far up, an ancestor's agent bounds a task's run, and so does the human who opened the root. */
  lemma EveryAncestorBounds(actions: seq<Action>, runId: string, n: nat)
    requires runId in RunAll(actions).runs && RunAll(actions).runs[runId].taskId.Some?
    ensures var s := RunAll(actions);
            var id := s.runs[runId].taskId.value;
            var above := Up(s.tasks, id, n);
            && id in s.tasks && above in s.tasks
            && (above != id ==> Bounds(s, runId, Agent(s.tasks[above].target)))
            && (s.tasks[above].parent.None? ==> Bounds(s, runId, Human(s.tasks[above].requestedBy)))
  {
    var s := RunAll(actions);
    EveryForestIsChained(actions);
    var id := s.runs[runId].taskId.value;
    UpIsInTheChain(s, id, n);
    assert Chained(s.tasks, s.tasks[Up(s.tasks, id, n)]);
  }

  /** Whoever asked for the task above is also the root human, or asked for the one below. */
  predicate SameAsker(above: Task, below: Task) {
    above.requestedBy in {"", below.authorizedBy, below.requestedBy}
  }

  lemma StartedBounds(s: State, child: string, runId: string, aboveId: string, p: Principal)
    requires Forest(s) && child in s.tasks && s.tasks[child].parent.Some?
    requires runId !in s.runs && aboveId !in s.runs && runId != aboveId
    ensures var parent := s.tasks[child].parent.value;
            var u := After(After(s, StartRun(runId, child)), StartRun(aboveId, parent));
            && parent in s.tasks && runId in u.runs && aboveId in u.runs
            && (Bounds(u, runId, p) <==>
                  match p
                  case Human(h) => h == s.tasks[child].authorizedBy || (h != "" && h == s.tasks[child].requestedBy)
                  case Agent(a) => a in s.tasks[child].chain)
            && (Bounds(u, aboveId, p) <==>
                  match p
                  case Human(h) => h == s.tasks[child].authorizedBy || (h != "" && h == s.tasks[parent].requestedBy)
                  case Agent(a) => a in s.tasks[parent].chain)
            && s.tasks[child].chain == s.tasks[parent].chain + [s.tasks[parent].target]
  {
    assert Chained(s.tasks, s.tasks[child]);
  }

  /**
   A run started for a delegated task may spend no more than a run started for the task above it, whatever anyone
   holds, exactly when the human who asked for the task above is the chain's root human or asked for this one too;
   below a root that is always so. The delegating agent bounds it in any case.
   */
  lemma DelegationNarrowsIff(s: State, child: string, runId: string, aboveId: string)
    requires Forest(s) && child in s.tasks && s.tasks[child].parent.Some?
    requires runId !in s.runs && aboveId !in s.runs && runId != aboveId
    ensures var parent := s.tasks[child].parent.value;
            var u := After(After(s, StartRun(runId, child)), StartRun(aboveId, parent));
            && parent in s.tasks && runId in u.runs && aboveId in u.runs
            && Bounds(u, runId, Agent(s.tasks[parent].target))
            && ((forall holds, c :: Granted(u, runId, holds, c) ==> Granted(u, aboveId, holds, c))
                <==> SameAsker(s.tasks[parent], s.tasks[child]))
            && (s.tasks[parent].parent.None? ==> SameAsker(s.tasks[parent], s.tasks[child]))
  {
    assert Chained(s.tasks, s.tasks[child]);
    var parent := s.tasks[child].parent.value;
    assert Chained(s.tasks, s.tasks[parent]);
    var u := After(After(s, StartRun(runId, child)), StartRun(aboveId, parent));
    var asker := Human(s.tasks[parent].requestedBy);
    StartedBounds(s, child, runId, aboveId, asker);
    StartedBounds(s, child, runId, aboveId, Agent(s.tasks[parent].target));
    hide After;
    if SameAsker(s.tasks[parent], s.tasks[child]) {
      forall p: Principal | Bounds(u, aboveId, p) ensures Bounds(u, runId, p) {
        StartedBounds(s, child, runId, aboveId, p);
      }
    } else {
      var holds := (p, c) => Bounds(u, runId, p);
      assert Granted(u, runId, holds, "");
      assert Bounds(u, aboveId, asker) && !holds(asker, "");
      assert !Granted(u, aboveId, holds, "");
    }
  }

  function Humans(run: Run): set<string> {
    {run.authorizedBy} + run.callers + run.steerers
  }

  /**
   A resumed run stays bounded by every agent of its chain and, if it answers a task, by the chain's root human.
   It may spend no more than the run it resumes, whatever anyone holds, exactly when every human of that run is one
   of its own: those who acted on or steered the earlier run are not carried over.
   */
  lemma ResumeNarrowsIff(s: State, runId: string, earlier: string, userId: string)
    requires Forest(s) && earlier in s.runs && runId !in s.runs
    ensures var u := After(s, Resume(runId, earlier, userId));
            && runId in u.runs && earlier in u.runs
            && (forall a :: Bounds(u, runId, Agent(a)) <==> Bounds(u, earlier, Agent(a)))
            && (s.runs[earlier].taskId.Some? ==> Bounds(u, runId, Human(s.runs[earlier].authorizedBy)))
            && ((forall holds, c :: Granted(u, runId, holds, c) ==> Granted(u, earlier, holds, c))
                <==> Humans(s.runs[earlier]) <= Humans(Resumed(s.runs[earlier], userId)))
  {
    assert Linked(s.tasks, s.runs[earlier]);
    var run := Resumed(s.runs[earlier], userId);
    var u := After(s, Resume(runId, earlier, userId));
    assert u == s.(runs := s.runs[runId := Built(run)]) && Built(run).taskId == s.runs[earlier].taskId;
    hide After, Resumed, Built;
    assert forall p: Principal :: p.Human? ==> (Bounds(u, earlier, p) <==> p.userId in Humans(s.runs[earlier]));
    assert forall p: Principal :: p.Human? ==> (Bounds(u, runId, p) <==> p.userId in Humans(u.runs[runId]));
    if Humans(s.runs[earlier]) <= Humans(run) {
      forall p: Principal | Bounds(u, earlier, p) ensures Bounds(u, runId, p) {
      }
    } else {
      var h :| h in Humans(s.runs[earlier]) && h !in Humans(run);
      var holds := (p, c) => Bounds(u, runId, p);
      assert Granted(u, runId, holds, "");
      assert Bounds(u, earlier, Human(h)) && !holds(Human(h), "");
      assert !Granted(u, earlier, holds, "");
    }
  }

  // ---- Reachable states in which a run may spend more

  const CHAIN_OF_THREE := [
    OpenTask("root", None, "a", "h1"),
    OpenTask("middle", Some("root"), "b", "h2"),
    OpenTask("leaf", Some("middle"), "c", "h3"),
    StartRun("middleRun", "middle"),
    StartRun("leafRun", "leaf")]

  lemma {:induction false} RunAllOneMore(actions: seq<Action>, n: nat)
    requires n < |actions|
    ensures RunAll(actions[..n + 1]) == After(RunAll(actions[..n]), actions[n])
  {
    assert actions[..n + 1][..n] == actions[..n];
  }

  const ROOT := Task("a", None, [], 0, "h1", "h1")
  const MIDDLE := Task("b", Some("root"), ["a"], 1, "h1", "h2")
  const LEAF := Task("c", Some("middle"), ["a", "b"], 2, "h1", "h3")
  const CHAIN := State(map["root" := ROOT, "middle" := MIDDLE, "leaf" := LEAF], map[])

  const TWO := State(map["root" := ROOT, "middle" := MIDDLE], map[])

  lemma RootOpens()
    ensures RunAll(CHAIN_OF_THREE[..1]) == State(map["root" := ROOT], map[])
  {
    assert CHAIN_OF_THREE[..0] == [];
    RunAllOneMore(CHAIN_OF_THREE, 0);
  }

  lemma MiddleOpens()
    ensures RunAll(CHAIN_OF_THREE[..2]) == TWO
  {
    RootOpens();
    RunAllOneMore(CHAIN_OF_THREE, 1);
    assert [] + ["a"] == ["a"];
    OpensUnder(State(map["root" := ROOT], map[]), "middle", "root", "b", "h2");
    hide After, RunAll;
  }

  lemma ChainOpens()
    ensures RunAll(CHAIN_OF_THREE[..3]) == CHAIN
  {
    MiddleOpens();
    RunAllOneMore(CHAIN_OF_THREE, 2);
    assert ["a"] + ["b"] == ["a", "b"];
    OpensUnder(TWO, "leaf", "middle", "c", "h3");
    hide After, RunAll;
  }

  lemma OpensUnder(s: State, id: string, parent: string, target: string, requestedBy: string)
    requires id != "" && id !in s.tasks && parent in s.tasks
    requires var ancestry := s.tasks[parent].chain + [s.tasks[parent].target];
             target !in ancestry && Distinct(ancestry) && |ancestry| <= MAX_DELEGATION_DEPTH
    ensures var ancestry := s.tasks[parent].chain + [s.tasks[parent].target];
            After(s, OpenTask(id, Some(parent), target, requestedBy))
            == s.(tasks := s.tasks[id := Task(target, Some(parent), ancestry, |ancestry|, s.tasks[parent].authorizedBy, requestedBy)])
  {
  }

  /** Three humans ask down one chain: the run two below the root spends what the human in the middle was refused. */
  lemma ChainOfThreeWidens()
    ensures var s := RunAll(CHAIN_OF_THREE);
            && "middle" in s.tasks && "leaf" in s.tasks && s.tasks["leaf"].parent == Some("middle")
            && !SameAsker(s.tasks["middle"], s.tasks["leaf"])
            && "middleRun" in s.runs && "leafRun" in s.runs
            && var holds := (p: Principal, c: string) => p != Human("h2");
               Granted(s, "leafRun", holds, "coding") && !Granted(s, "middleRun", holds, "coding")
  {
    var actions := CHAIN_OF_THREE;
    assert actions[..5] == actions;
    ChainOpens();
    RunAllOneMore(actions, 3);
    RunAllOneMore(actions, 4);
    var s := RunAll(actions);
    hide RunAll, Open;
    assert s.tasks == CHAIN.tasks;
    assert s.runs["leafRun"] == Run(Some("leaf"), Some("leaf"), "h1", {"h3"}, {});
    assert s.runs["middleRun"] == Run(Some("middle"), Some("middle"), "h1", {"h2"}, {});
    assert Bounds(s, "middleRun", Human("h2"));
  }

  const STEERED_AND_RESUMED := [
    OpenTask("root", None, "a", "h1"),
    StartRun("first", "root"),
    Steer("first", "h2"),
    Resume("second", "first", "h1")]

  /** A human steers a delegated run and another resumes it: the new run spends what the steerer was refused. */
  lemma SteeredAndResumedWidens()
    ensures var s := RunAll(STEERED_AND_RESUMED);
            && "first" in s.runs && "second" in s.runs && s.runs["second"].taskId == s.runs["first"].taskId == Some("root")
            && var holds := (p: Principal, c: string) => p != Human("h2");
               Granted(s, "second", holds, "coding") && !Granted(s, "first", holds, "coding")
  {
    var actions := STEERED_AND_RESUMED;
    assert actions[..0] == [] && actions[..4] == actions;
    RunAllOneMore(actions, 0);
    RunAllOneMore(actions, 1);
    RunAllOneMore(actions, 2);
    RunAllOneMore(actions, 3);
    var s := RunAll(actions);
    assert s.runs["second"] == Run(Some("root"), Some("root"), "h1", {"h1"}, {});
    assert Bounds(s, "first", Human("h2"));
  }
}
