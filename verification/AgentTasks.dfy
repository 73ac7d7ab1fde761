/** The task lifecycle between agents (src/multiplayer/domain/agent_tasks.py; section 6.3 of A2A v0.3.0). */
module AgentTasks {

  datatype TaskState =
    | Submitted
    | Working
    | InputRequired
    | AuthRequired
    | Completed
    | Failed
    | Canceled
    | Rejected

  const TERMINAL_STATES := {Completed, Failed, Canceled, Rejected}

  /** LEGAL_TRANSITIONS, written out as the source writes it out. */
  function LegalTransitions(s: TaskState): set<TaskState> {
    match s
    case Submitted => {Working, Rejected, Canceled, AuthRequired}
    case Working => {InputRequired, AuthRequired, Completed, Failed, Canceled}
    case InputRequired => {Working, Canceled, Failed}
    case AuthRequired => {Working, Canceled, Failed, Rejected}
    case _ => {}
  }

  predicate Terminal(s: TaskState) {
    s in TERMINAL_STATES
  }

  /** The states a task moves through, each by a legal transition. */
  predicate LegalPath(from: TaskState, path: seq<TaskState>)
    decreases |path|
  {
    path == [] || (path[0] in LegalTransitions(from) && LegalPath(path[0], path[1..]))
  }

  /** A path visits no state after a terminal one and never SUBMITTED again. */
  lemma {:induction false} PathsOnlyMoveForward(from: TaskState, path: seq<TaskState>)
    requires LegalPath(from, path)
    ensures Submitted !in path
    ensures Terminal(from) ==> path == []
    ensures forall k :: 0 <= k < |path| && Terminal(path[k]) ==> k == |path| - 1
    decreases |path|
  {
    if path != [] {
      PathsOnlyMoveForward(path[0], path[1..]);
      forall k | 0 <= k < |path| && Terminal(path[k]) ensures k == |path| - 1 {
        if k > 0 {
          assert path[1..][k - 1] == path[k];
        } else {
          assert path[1..] == [];
        }
      }
    }
  }

  /** Work is entered from every open state but itself, an answer or a question only from work, nothing from an end. */
  predicate Enters(from: TaskState, to: TaskState) {
    match to
    case Submitted => false
    case Working => from == Submitted || from == InputRequired || from == AuthRequired
    case InputRequired => from == Working
    case AuthRequired => from == Submitted || from == Working
    case Completed => from == Working
    case Failed => from == Working || from == InputRequired || from == AuthRequired
    case Canceled => from == Submitted || from == Working || from == InputRequired || from == AuthRequired
    case Rejected => from == Submitted || from == AuthRequired
  }

  function Before(from: TaskState, path: seq<TaskState>, k: nat): TaskState
    requires k < |path|
  {
    if k == 0 then from else path[k - 1]
  }

  /** A path is legal exactly when each of its states may be entered from the one before. */
  lemma {:induction false} LegalIffEntered(from: TaskState, path: seq<TaskState>)
    ensures LegalPath(from, path) <==> forall k :: 0 <= k < |path| ==> Enters(Before(from, path, k), path[k])
    decreases |path|
  {
    if path != [] {
      var rest := path[1..];
      LegalIffEntered(path[0], rest);
      assert path[0] in LegalTransitions(from) <==> Enters(Before(from, path, 0), path[0]);
      forall k | 0 <= k < |rest|
        ensures Enters(Before(path[0], rest, k), rest[k]) <==> Enters(Before(from, path, k + 1), path[k + 1])
      {
        assert rest[k] == path[k + 1] && Before(path[0], rest, k) == Before(from, path, k + 1);
      }
      forall k | 0 < k < |path| ensures Enters(Before(from, path, k), path[k]) <==> Enters(Before(path[0], rest, k - 1), rest[k - 1]) {
        assert rest[k - 1] == path[k] && Before(path[0], rest, k - 1) == Before(from, path, k);
      }
    }
  }
}
