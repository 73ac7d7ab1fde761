# XYZZY, verified in Dafny

XYZZY keeps a shared room as a durable, ordered, hash-chained log, and around that log a settlement kernel for
agent runs, a live-delivery layer, and bounded in-memory structures. This project models those parts of the
program and proves what they promise, over every input, every run or every schedule.

| files | part of the program |
|---|---|
| `EventChain`, `EventLog`, `ChainVerifier`, `ChainRuns`, `ChainTheorems` | the hash-chained event log, the erase step, the verifier of the chain, and what its verdict is worth |
| `Connection` | transaction ownership over one connection, with cancellation at every await |
| `AgentTasks`, `Settlement`, `SettlementStore`, `SettlementInvariant`, `SettlementSteps`, `SettlementTheorems`, `SettlementEffects`, `SettlementLog` | executions, run envelopes, outputs, branches, turn locks and agent tasks moving together |
| `Hub`, `Handover`, `Fanout` | bounded subscriber queues, one socket's way from stored history to live events, and several processes sharing broadcasts |
| `RateLimiter`, `RateBound` | the rate limiter's buckets, their books, and how many requests they can admit |
| `Delegation` | the chains of delegated tasks and the principals that bound a run |
| `SearchIndex` | the search index beside the rows it copies |
| `Ontology` | the conflict rule under which assertions are rewritten |
| `ShareInline`, `ShareMarkdown` | the renderer of a shared page, inline and block by block |
| `Prelude` | `Option` and `Result` |

`dafny verify dfyconfig.toml` checks everything.

## Reading the model

Code that updates tables or fields in place is a class (`EventLog.EventStore`, `SettlementStore.Repos`,
`SearchIndex.Repos`, `Hub.RealtimeHub`, `RateLimiter.RateLimitBuckets`, `Ontology.OntologyRepo`) or a method with
a loop (`ChainVerifier.VerifyRoom`, `ShareMarkdown.RenderShareMarkdown`), proved equal to a function on values; the
properties are lemmas about that function. Beside the invariants each kernel has lemmas that say what a step leaves column
by column and entry by entry (`ChainRuns.EraseIsExact`, `SettlementEffects`, `Hub.JoinIsExact`). An exception is an `Err`, and the transaction it leaves is rolled back. Interleavings are state machines
over the steps between two awaits. Ids that the program draws at random, times, and the order in which Python
iterates a set are parameters.

**Event chain.** `Codec` holds three arbitrary functions for SHA-256 (FIPS 180-4, section 6.2) over a JSON list,
`json.loads` and `json.dumps` (RFC 8259). Nothing is assumed injective: the tamper theorems end in "or two different
lists, both hashed for these two tables, have the same digest", a finite set of lists that the two tables give. An
honest history is any run of appends and erase steps, in which an erasure works on rows it listed at any earlier time;
the adversary then replaces every table by any other that the verifier accepts with the last hash the honest log has.

**Transactions.** Tasks, their awaits, cancellations and the connection's worker with its first-in-first-out queue
take steps in any order. Each statement may fail. The state carries which statements ran, which became durable and
which transactions committed.

**Settlement.** `Run` is any sequence of client steps, each one transaction. `Permitted` is what the service layer
keeps to: generic status writes are not terminal, a branch or session handed in beside an execution is its own,
and nothing is started into a managed branch.

**Delivery.** A queue carries its history (all that was offered, all that was taken). In the handover a broadcast
follows its commit and broadcasts of a room come in sequence order; everything else interleaves freely, including
overflow, revocation, other rooms on the same queue and hanging up. In the fan-out each process has a whole hub, and
every delivery to a subscription is recorded beside the queue it went into.

## Where a promise does not hold as stated

- A room verifies, after any appends and erasures, exactly when no caller stored a payload with the two-key shape of a
  redaction marker in it (`ChainTheorems.EveryRunVerifiesIff`). Among appends alone that holds even where anybody
  writes `event.redacted` (`ChainTheorems.AppendOnlyVerifiesIff`).
- The event id of a marker row is bound by nothing: any unused id is accepted in its place
  (`ChainTheorems.MarkerEventIdIsFree`).
- Settling a run raises not only when its lease was renewed but also when its task is SUBMITTED and would have to
  fail (`SettlementTheorems.SettleRaisesIff`); no reachable state has such a task attached
  (`SettlementTheorems.ReachableSettles`).
- A rate-limit bucket admits up to `2 * limit - 1` requests in 60 seconds, and for every limit from two up some run
  attains that (`RateBound.BoundIsAttained`).
- Materializing a batch twice writes nothing the second time, whatever the rows are and whichever of its accounts the
  pass makes, exactly when no account of an object comes after a later, different account of it
  (`Ontology.QuietIffConsistent`). Over one such pair the second pass writes and the third does not
  (`Ontology.DisorderRewrites`); for one batch as a whole the pair may be harmless (`Ontology.DisorderMayBeHarmless`).
  `Ontology.AlwaysQuietIff` gives the exact condition on one batch for all rows, and `Ontology.SecondPassWritesIff` the
  exact case for given rows. It never goes on: no pass after the first `|batch|` writes (`Ontology.PassesFallQuiet`).
- The search index stays what a backfill would compute only while each version's number exceeds all earlier ones of
  its artifact (`SearchIndex.VersionKeepsIff`) and an updated task exists (`SearchIndex.UpdateKeepsIff`).
- A delegated run is bounded by every agent of its chain and by the chain's root human, but not by a human in between:
  it may spend no more than a run of the task above exactly when whoever asked for that one is the root human or asked
  for this one too (`Delegation.DelegationNarrowsIff`); three humans asking down one chain are a case where it may
  spend more (`Delegation.ChainOfThreeWidens`). A resumed run does not inherit the humans who acted on or steered the
  run it resumes (`Delegation.ResumeNarrowsIff`, `Delegation.SteeredAndResumedWidens`).
- Code and bold on a shared page need not nest (`ShareInline.InlineMayCross`), though no tag but the fixed ones appears.
- A remark on why the head check is there: a socket subscribed with a cursor beyond the head, which the endpoint never
  lets happen, would not be sent the room's next commit (`Handover.SkippingTheHeadCheckSwallows`).

## Model

| member | source | states |
|---|---|---|
| EventChain.AnnouncedRedactions | src/multiplayer/security/audit.py:50-82 | the loop over a payload's entries returns exactly the well-typed ones, in order, and none for any other event type or malformed payload |
| EventChain.AnnouncedIff | src/multiplayer/security/audit.py:50-82 | an event announces exactly what the objects with three strings in the redactions list of an event.redacted payload tell |
| EventChain.MarkerIff | src/multiplayer/security/audit.py:23-41 | a payload is a marker exactly if it is an object of those two fields and no other, with an id that is not empty |
| EventChain.MarkerRoundTrip | src/multiplayer/security/audit.py:23-41 | the marker an erasure writes is read back with the id it was written with |
| EventChain.AnnouncementRoundTrip | src/multiplayer/services/erasure.py:868-895 | the verifier reads out of an event.redacted payload exactly the announcements the erasure put in |
| EventChain.MarkersAnnounceNothing | src/multiplayer/security/audit.py:23-82 | no stored payload is both a marker and an announcement |
| EventLog.EventStore.AppendWithNextSequence | src/multiplayer/db/repositories.py:4491-4569 | bumps the counter, chains onto the predecessor's hash and inserts; an error leaves every table as it was |
| EventLog.EventStore.EraseRoom | src/multiplayer/services/erasure.py:768-895 | the loop over the rows listed earlier leaves markers, records and one announcement and returns how many, or leaves nothing at all |
| EventLog.PersonalIsCarried | src/multiplayer/services/erasure.py:693-722 | which fields of which events count as personal, spelled out |
| EventLog.ErasesExactly | src/multiplayer/services/erasure.py:768-895 | an erasure goes through exactly when each of the victim's listed rows reads and each chosen one has a record nobody has yet; it then has marked the victim's rows under "user" or "human" that carry personal fields and are no markers, with the record and note of each, and no others |
| ChainRuns.AppendIsExact | src/multiplayer/db/repositories.py:4491-4569 | an append goes through exactly when its event id is free; it then has added one row with the event's own fields, behind its predecessor's hash and under the hash of all of them, and touched no other room |
| ChainRuns.EraseIsExact | src/multiplayer/services/erasure.py:758-895 | on the tables before and after: chosen rows have become recorded markers, one signed event notes each of them, every other row of every room is as it was |
| ChainRuns.ErasureLeavesNothing | src/multiplayer/db/repositories.py:4669-4672 | in any run, after an erasure over the rows as they stand no row of the room is left to erase for its victim |
| ChainVerifier.EarliestPending | src/multiplayer/security/audit.py:318-338 | picks the open redaction with the lowest sequence |
| ChainVerifier.ResolveAnnouncements | src/multiplayer/security/audit.py:257-287 | strikes out what the entries name, stopping at the first that contradicts its record |
| ChainVerifier.ResolveMeans | src/multiplayer/security/audit.py:257-287 | fails exactly when some first naming contradicts its pending record, and else strikes out exactly what is named |
| ChainVerifier.VerifyRow | src/multiplayer/security/audit.py:197-298 | one row's checks in their order, with the reason of the first that fails |
| ChainVerifier.VerifyRoom | src/multiplayer/security/audit.py:180-358 | the loop with its running state reports the first divergence and the number of rows before it |
| ChainVerifier.VerifyEventChain | src/multiplayer/security/audit.py:154-359 | over all rooms in scope, the rows verified and the breaks are those of each room's report |
| ChainVerifier.OneBreakPerRoom | src/multiplayer/security/audit.py:299-358 | no break is reported exactly when every room in scope passes, and no room is named twice |
| ChainVerifier.DivergenceIsFinal | src/multiplayer/security/audit.py:180-298 | after a divergence no later row changes the report |
| ChainVerifier.ReportNamesTheFirst | src/multiplayer/security/audit.py:197-298 | if a row fails, the count is that of the rows before the first that does, and the break carries that row's own sequence and event id and the reason of the first of its checks to fail |
| ChainVerifier.OneReason | src/multiplayer/security/audit.py:197-298 | the reasons' conditions exclude each other, so no row has two |
| ChainVerifier.ReportNamesTheUnannounced | src/multiplayer/security/audit.py:299-338 | where every row passes, the break is the open redaction of lowest sequence, if any marker was never announced |
| ChainVerifier.ReportComparesTheCounter | src/multiplayer/security/audit.py:339-358 | and else the counter against the last sequence |
| ChainVerifier.VerdictAdds | src/multiplayer/security/audit.py:154-178 | over the rooms in scope the counts add up and each room's own break stands in its place |
| ChainVerifier.AcceptsIffWellFormed | src/multiplayer/security/audit.py:180-358 | a room passes exactly when its rows are numbered 1..n, linked, each backed by its hash or its record, every marker answered truly by the first later event naming it, and the counter is n |
| ChainRuns.EveryRunIsSound | src/multiplayer/db/repositories.py:4491-4569 | every run, whatever its payloads, only adds rows and marks ordinary ones, and keeps every room without a stored marker honest |
| ChainTheorems.EveryRunVerifies | src/multiplayer/db/repositories.py:4491-4569 | after any run the sequences are 1..n and the counter is n, and where no caller stored a marker the verifier counts n rows and reports nothing |
| ChainTheorems.EveryRunVerifiesIff | src/multiplayer/security/audit.py:180-359 | after any run a room verifies if and only if no caller stored a payload of the marker's shape in it |
| ChainTheorems.AppendOnlyVerifiesIff | src/multiplayer/security/audit.py:220-298 | the same for appends alone where anybody may write event.redacted |
| ChainRuns.AnnouncementsAreNotPersonal | src/multiplayer/services/erasure.py:693-722 | the erase step never erases an announcement of an earlier one |
| ChainTheorems.TamperEvidence | src/multiplayer/security/audit.py:154-359 | a table accepted under the honest log's last hash (its counter, where either has no row) has its length and agrees with every row as first written, except that rows the log erased may carry markers instead; otherwise two different lists hashed for these two tables share a digest |
| ChainTheorems.LastHashFixesLength | src/multiplayer/security/audit.py:180-338 | a table accepted under the honest log's last hash has as many rows, whatever its counter, unless two such lists share a digest |
| ChainTheorems.DroppedSuffixIsReported | src/multiplayer/security/audit.py:339-358 | dropping any rows from the end of an accepted log under an unchanged counter is reported |
| ChainTheorems.TamperEvidenceWithoutErasure | src/multiplayer/security/audit.py:154-359 | where the honest log holds no marker, a table accepted under its last hash (its counter, where either has no row) equals it row for row, unless two such lists share a digest |
| ChainTheorems.MarkerEventIdIsFree | src/multiplayer/security/audit.py:85-108 | a marker row and its record moved to any unused event id are still accepted |
| Connection.EveryScheduleKeeps | src/multiplayer/db/connection.py:123-177 | the queue, the lock and the open transaction fit together in every schedule of tasks, failures and cancellations |
| Connection.DurableIsSerialAndAtomic | src/multiplayer/db/connection.py:123-177 | durable statements stand in whole blocks of one transaction each, and a transaction's statements are durable all together exactly when it committed |
| Connection.CallsMeetTheirTransaction | src/multiplayer/db/connection.py:139-177 | the worker never runs BEGIN inside a transaction, nor a statement inside another task's |
| Connection.FreeLockMeansClosed | src/multiplayer/db/connection.py:139-163 | whoever finds the lock free, or gives it back, leaves no transaction open and none queued |
| Connection.NormalReturnMeansCommitted | src/multiplayer/db/connection.py:139-163 | a transaction() that leaves its with block normally has committed |
| Connection.AbandonedNeverCommits | src/multiplayer/db/connection.py:139-163 | in every schedule a transaction whose block raised, or whose BEGIN failed or was cancelled, never commits and nothing of it becomes durable |
| Connection.CommittedHasReturned | src/multiplayer/db/connection.py:148-152 | a transaction committed only after its block returned |
| Connection.DurableIsWhatWasAsked | src/multiplayer/db/connection.py:123-177 | what is durable of a transaction are the texts its task passed to execute, in order, those that succeeded, or nothing |
| Connection.UndisturbedEnds | src/multiplayer/db/connection.py:123-163 | from any idle state a transaction nobody disturbs commits exactly its texts if its block returns, nothing if it raises, and gives the lock back |
| Connection.UndisturbedExecutes | src/multiplayer/db/connection.py:171-177 | a statement outside a transaction takes the lock, runs, and is durable |
| AgentTasks.PathsOnlyMoveForward | src/multiplayer/domain/agent_tasks.py:65-100 | a legal path never enters SUBMITTED and ends at the first terminal state |
| AgentTasks.LegalIffEntered | src/multiplayer/domain/agent_tasks.py:65-100 | a path is legal exactly when each state may be entered from the one before, told by its target |
| SettlementStore.Repos.SettleAgentTask | src/multiplayer/db/repositories.py:3483-3533 | settles the task the execution still drives, appending the output's text before completing it |
| SettlementStore.Repos.SettleAgentRun | src/multiplayer/db/repositories.py:217-291 | settles an open envelope under the lease's compare and swap, and its task with it |
| SettlementStore.Repos.FinishManagedBranch | src/multiplayer/db/repositories.py:294-368 | derives the branch's status from the list of its executions' statuses, announces it and releases its lock |
| SettlementStore.OutcomeOf | src/multiplayer/db/repositories.py:309-336 | the status derived from any listing of a branch's statuses depends only on the executions |
| SettlementStore.Repos.CompleteInTransaction | src/multiplayer/db/repositories.py:2861-2941 | writes output, status, settlement, branch, events and message in their order, or raises as the first failing guard does |
| SettlementStore.Repos.TerminalizeInTransaction | src/multiplayer/db/repositories.py:2374-2452 | ends an execution FAILED or CANCELLED with its session, settlement and branch, or raises |
| SettlementStore.Repos.StartBranchInTransaction | src/multiplayer/services/branches.py:126-277 | the loop over agents launches every run of a branch, with its lock, or raises at the first launch that fails |
| SettlementStore.Repos.StartWithEventInTransaction | src/multiplayer/db/repositories.py:2216-2272 | starts an execution under the turn guard with its envelope and event, or raises |
| SettlementStore.Repos.StartTaskInTransaction | src/multiplayer/services/agent_tasks.py:571-597 | moves, launches and attaches a task's run in that order, or raises |
| SettlementStore.Repos.TransitionAgentTask | src/multiplayer/db/repositories.py:3621-3663 | moves a task along a legal edge from the state the caller read, or raises |
| SettlementStore.Repos.AdvanceRun | src/multiplayer/db/repositories.py:1835-1874 | moves and renews exactly the one open run of this id, from the state expected if one is given, and reports it; otherwise nothing changes, and a settled run never does |
| SettlementStore.Repos.ChargeAttempt | src/multiplayer/db/repositories.py:1876-1891 | charges one attempt to exactly the one open run of this id, while the count read still stands and the maximum is not reached; otherwise nothing changes |
| SettlementSteps.RunIdsStayUnique | src/multiplayer/db/repositories.py:1835-1891 | no two envelopes of a reachable state have one run id, which is what those two updates select by |
| SettlementStore.Repos.PostInTransaction | src/multiplayer/db/repositories.py:3834-3858 | a message lands with its event unless it is human and the room's turn is held, or its id is taken |
| SettlementStore.Repos.Transact | src/multiplayer/db/repositories.py:181-368 | any client step in its own transaction leaves what the step computes, or on an exception every table as it was |
| SettlementInvariant.FinishKeeps | src/multiplayer/db/repositories.py:294-368 | finishing after one execution ends keeps branch statuses derived, locks live and terminal events announced once |
| SettlementInvariant.EndKeeps | src/multiplayer/db/repositories.py:2409-2452 | ending an execution, settling its run and finishing its branch restore the whole invariant together |
| SettlementSteps.EveryRunIsSound | src/multiplayer/db/repositories.py:181-368 | every reachable state satisfies the invariant that ties executions, envelopes, outputs, branches, locks, tasks and log |
| SettlementSteps.EveryRunAgrees | src/multiplayer/db/repositories.py:181-368 | in every reachable state an output exists exactly for COMPLETED executions, an ended execution's envelope is SETTLED, a managed branch is terminal exactly when its executions are, with the status they derive and exactly one terminal event, an ACTIVE lock names a live branch, and a task behind a settled run has ended |
| SettlementLog.EachSettlementIsToldOnce | src/multiplayer/db/repositories.py:217-291 | the log holds exactly one settlement event for each settled run, with its reason, and none for an open one |
| SettlementTheorems.SettleRaisesIff | src/multiplayer/db/repositories.py:241-291 | settling an open run raises if and only if its lease was renewed, or its task is SUBMITTED and would have to fail |
| SettlementTheorems.ReachableSettles | src/multiplayer/db/repositories.py:241-291 | in a reachable state only a renewed lease makes a settlement raise |
| SettlementTheorems.NoTaskWaitsBehindASettledRun | src/multiplayer/db/repositories.py:3579-3600 | no reachable state holds what the sweep for tasks working behind settled runs looks for |
| SettlementTheorems.EndedRunsNeedNoSettling | src/multiplayer/services/_shared.py:1199-1210 | settling the run of an ended execution changes nothing and raises nothing |
| SettlementTheorems.JointSettlement | src/multiplayer/db/repositories.py:3483-3533 | the task ends along legal edges which its events report, COMPLETED exactly for END_TURN with an output, whose text becomes the delegate's last message; REJECTED and CANCELED exactly for their settlements |
| SettlementTheorems.SupersededLeavesTasks | src/multiplayer/db/repositories.py:3454-3462 | a superseded execution, or one whose task already ended, leaves every task and conversation alone |
| SettlementTheorems.StepKept | src/multiplayer/db/repositories.py:181-368 | no step changes a settled run, an ended execution, an output, a finished branch, a terminal task or what was logged, raises attempts beyond the maximum, or frees a turn except by ending its branch |
| SettlementTheorems.EveryRunKept | src/multiplayer/db/repositories.py:181-368 | the same from any point of a run to its end |
| SettlementTheorems.TurnStays | src/multiplayer/db/repositories.py:2227-2240 | from the moment a branch holds a room's turn until that branch finishes, the turn is its |
| SettlementTheorems.LockExcludes | src/multiplayer/db/repositories.py:2227-2240 | over that whole stretch of any run no human message and no managed branch joins the room, and every start of another branch, or of an execution of another branch under the turn guard, changes nothing |
| SettlementTheorems.FinishingFreesTheTurn | src/multiplayer/db/repositories.py:345-368 | the step that finishes the branch holding the turn frees that turn and no other |
| SettlementTheorems.StaleSweepChangesNothing | src/multiplayer/db/repositories.py:245-259 | a sweep deciding on a lease renewed since it was read changes no table |
| SettlementTheorems.CompleteSucceedsIff | src/multiplayer/db/repositories.py:2861-2941 | a turn completes if and only if its execution is as read, its run is open, its output id is new and its message may land |
| SettlementTheorems.CompletionIsJoint | src/multiplayer/db/repositories.py:2861-2941 | output, COMPLETED, END_TURN and the completed task with its answer appear in the same commit, whose log is exactly the caller's events, the settlement's, the task's moves, the branch's ending with the release of its turn, and the message |
| SettlementTheorems.TerminationIsJoint | src/multiplayer/db/repositories.py:2374-2452 | an execution ended without output takes its session, its run with the reason given or the status's own, and its task with it, and writes no output |
| SettlementEffects.CompletionWrites | src/multiplayer/db/repositories.py:2861-2941 | every column and entry of a completion: the execution, session and output rows, the run END_TURN at this time, the task answered, the branch closed if it ends with this; and a log that goes on with each of the caller's events, the run's settlement by its agent, the task's moves, the closing and the message |
| SettlementEffects.TerminationWrites | src/multiplayer/db/repositories.py:2374-2452 | the same of an ending without output, with the reason and decider given or the status's own and its agent |
| SettlementEffects.TerminationSucceedsIff | src/multiplayer/db/repositories.py:2374-2452 | in a reachable state an ending goes through exactly as FAILED or CANCELLED, from the status read, with a session, and with a lease that was not renewed |
| SettlementEffects.SettlementWrites | src/multiplayer/db/repositories.py:217-291 | the same of a settlement on its own, which writes the run, its task and their events and nothing else |
| SettlementTheorems.BranchOpens | src/multiplayer/services/branches.py:65-277 | a started branch holds exactly the launched executions, each PENDING behind an open run, and the turn it asked for |
| SettlementEffects.LaunchesWrite | src/multiplayer/services/branches.py:180-262 | launches go through exactly when each could alone and no two share an id; every column of their sessions, executions and runs |
| SettlementEffects.BranchStartWrites | src/multiplayer/services/branches.py:65-277 | a branch starts exactly with one agent that takes the turn or two or three different ones, a free turn and new ids; its rows and its events, one per launch |
| SettlementEffects.EventStartWrites | src/multiplayer/db/repositories.py:2216-2272 | an execution started with its event: not past another branch's turn, by default in the legacy branch; its rows column by column |
| SettlementEffects.EventStartSucceedsIff | src/multiplayer/db/repositories.py:2216-2272 | and exactly when it goes through |
| SettlementEffects.InvocationWrites | src/multiplayer/services/conversation.py:136-196 | a mention opens a session, a PENDING execution in the legacy branch, its open run and one event |
| SettlementEffects.InvocationSucceedsIff | src/multiplayer/services/conversation.py:136-196 | which goes through exactly when the room has, or may have, its legacy branch and the launch is admitted under new ids |
| SettlementEffects.TaskStartWrites | src/multiplayer/services/agent_tasks.py:571-597 | a task goes from the state read to WORKING, driven by the new execution, which names it |
| SettlementEffects.TaskStartSucceedsIff | src/multiplayer/services/agent_tasks.py:571-597 | exactly when it is in the state read, that is SUBMITTED, INPUT_REQUIRED or AUTH_REQUIRED, and the launch could go through |
| Hub.RealtimeHub.Subscribe | src/multiplayer/realtime/hub.py:124-148 | adds a subscription to both indexes, on a new queue or the caller's |
| Hub.RealtimeHub.Unsubscribe | src/multiplayer/realtime/hub.py:150-154 | removes it from both |
| Hub.RealtimeHub.BroadcastToRoom | src/multiplayer/realtime/hub.py:202-223 | offers the event to every subscription of the room and returns those whose queue had space |
| Hub.RealtimeHub.Put | src/multiplayer/realtime/hub.py:211-248 | puts a message in, or evicts the oldest entry for a resync marker |
| Hub.RealtimeHub.RevokeRoomAccess | src/multiplayer/realtime/hub.py:165-200 | drops the user's subscriptions to the room and marks each of their queues |
| Hub.RealtimeHub.SendToUser | src/multiplayer/realtime/hub.py:268-291 | offers to every subscription of the user and reports whether one had space |
| Hub.RevokeCloses | src/multiplayer/realtime/hub.py:165-194 | afterwards the user holds nothing in the room and each queue held there carries or has delivered a marker |
| Hub.JoinIsExact | src/multiplayer/realtime/hub.py:124-148 | a subscription is its user's and its room's, on the caller's queue or a new empty one; every other subscription, room and queue is as before |
| Hub.LeaveIsExact | src/multiplayer/realtime/hub.py:150-154 | leaving ends this subscription, in both indexes, and no other |
| Hub.RevokeIsExact | src/multiplayer/realtime/hub.py:165-200 | a revocation ends exactly the subscriptions of this user in this room and offers each of their queues, and no other, the revocation once for each |
| Hub.JoinedThenRevoked | src/multiplayer/realtime/hub.py:124-200 | in every run a revocation ends the subscription of a user that joined the room and did not leave, and marks the queue it was given |
| Hub.BroadcastIsExact | src/multiplayer/realtime/hub.py:202-248 | each queue is offered a broadcast once for each of its subscriptions of the room, in order while it fits and with a resync where it does not, and not at all without one |
| Hub.SendIsExact | src/multiplayer/realtime/hub.py:268-291 | the same of what is sent to a user, over all its subscriptions |
| Hub.DeliveredIff | src/multiplayer/realtime/hub.py:202-223 | a subscription counts as reached exactly if its queue had room left by those that drain into it before |
| Hub.ReadIsExact | src/multiplayer/realtime/websocket.py:366-441 | a read takes the oldest entry of its queue and changes nothing else |
| Hub.EveryRunKeeps | src/multiplayer/realtime/hub.py:124-291 | the room index and the subscription map agree in every reachable state, whatever queues are shared |
| Hub.NoSilentLoss | src/multiplayer/realtime/hub.py:202-248 | a queue without a marker, held or met, has delivered or still holds exactly what was offered to it, in order, and belongs to no revoked subscription |
| Hub.BroadcastReachesTheRoom | src/multiplayer/realtime/hub.py:202-223 | a broadcast is offered once to the queue of a socket that holds the room once and not at all to one that does not |
| Handover.NeverRepeats | src/multiplayer/realtime/websocket.py:335-365 | whatever happens, the socket sends the room's sequences in strictly increasing order from beyond its cursor |
| Handover.GaplessHandover | src/multiplayer/realtime/websocket.py:228-441 | unless its queue carries a marker the socket has sent exactly cursor + 1, cursor + 2, ..., all committed, and once live and drained all that was announced |
| Handover.MarkersClose | src/multiplayer/realtime/websocket.py:366-441 | a live socket that reads a revocation or a resync marker sends nothing more, whatever follows |
| Handover.UndisturbedReplay | src/multiplayer/realtime/websocket.py:233-365 | a socket comes in exactly if its cursor is not beyond the head, a cursor at the head included; left alone it sends every event after its cursor and goes live, subscribed, with nothing queued |
| Handover.LiveSendsTheNext | src/multiplayer/realtime/websocket.py:366-441 | a live socket that is current sends the room's next event when it is announced |
| RateLimiter.GuardKeeps | src/multiplayer/server.py:225-308 | between requests each address is counted as often as it owns buckets, within its cap, every owned bucket has a window, and the windows never exceed theirs |
| RateLimiter.TrimKeepsLatest | src/multiplayer/server.py:301-308 | evicting the least recently used leaves exactly the most recent within the cap, in their order |
| RateLimiter.EnforceKeepsTheLatest | src/multiplayer/server.py:292-308 | beyond the cap every rolled window goes first and then the least recently used; below it nothing does |
| RateLimiter.RateLimitBuckets.Admit | src/multiplayer/server.py:225-308 | one request is keyed, its window touched, and admitted and recorded or refused, in place, keeping the books |
| RateLimiter.RateLimitBuckets.Enforce | src/multiplayer/server.py:292-308 | evicts rolled windows first and then the least recently used until the windows fit |
| RateLimiter.GuardCharges | src/multiplayer/server.py:225-290 | each request is charged to its own bucket, its token's where that has one or its address may start one, else its address's; refused exactly if that window is used up and told the least whole number of seconds greater than those left; else counted there and nowhere else |
| RateLimiter.RetryAfterSuffices | src/multiplayer/server.py:554-564 | a refused request that comes back after the seconds it was told finds a fresh window, if no other request used the bucket in between |
| RateBound.AdmissionBound | src/multiplayer/server.py:279-308 | a bucket never evicted while live admits at most 2 * limit - 1 requests in any half-open 60 seconds |
| RateBound.BoundIsAttained | src/multiplayer/server.py:279-290 | for every limit from two up some run admits exactly that many |
| Fanout.OfferedAtMostOnce | src/multiplayer/realtime/fanout.py:136-170 | in every schedule and every process a queue was offered exactly what the recorded deliveries say, each of a call somebody made, and no subscription is offered one call twice |
| Fanout.ReceivingReaches | src/multiplayer/realtime/fanout.py:136-170 | a received call from another process is offered once to each subscription it concerns |
| Fanout.PublishedReaches | src/multiplayer/realtime/fanout.py:100-170 | a published call that Redis takes is offered exactly once to each subscription it concerns, in the process that made it and in another that receives it |
| Fanout.EchoesAreOwn | src/multiplayer/realtime/fanout.py:136-146 | with distinct origins a process drops as its echo exactly the calls it made |
| Fanout.OnlyCallsPublish | src/multiplayer/realtime/hub.py:165-291 | the count of publishes is that of the calls the program makes with publish left on, so receiving adds none |
| Delegation.EveryForestIsChained | src/multiplayer/db/repositories.py:3386-3444 | in every reachable forest a stored chain is the parent's chain plus the parent's agent, without repetition, and every run of a task, resumed or not, keeps its task and root human |
| Delegation.DelegationIsBounded | src/multiplayer/domain/agent_tasks.py:277-305 | a chain with its target repeats no agent, the stored depth is its length and at most four, and it is what a walk over the parents finds |
| Delegation.EveryAncestorBounds | src/multiplayer/db/repositories.py:2531-2579 | however far up, an ancestor's agent bounds a task's every run, and so does the human who opened the root |
| Delegation.StepOnlyNarrows | src/multiplayer/db/repositories.py:2500-2579 | no step drops a principal of a run |
| Delegation.StepBindsExactly | src/multiplayer/db/repositories.py:2500-2579 | whom each step makes a principal of which run: exactly the starter's, the task's, the caller recorded or the one who steered, and nobody else |
| Delegation.OpensExactly | src/multiplayer/domain/agent_tasks.py:277-305 | when a task opens, and with which chain, depth and humans |
| Delegation.GrantOnlyNarrows | src/multiplayer/security/capabilities.py:77-138 | for fixed memberships what a run may spend only narrows as it goes on |
| Delegation.DelegationNarrowsIff | src/multiplayer/services/agent_tasks.py:571-597 | a delegated task's run may spend no more than a run of the task above exactly when the human who asked above is the root human or asked below too; the delegating agent always bounds it |
| Delegation.ResumeNarrowsIff | src/multiplayer/services/runs.py:307-354 | a resumed run keeps its chain and root human, and spends no more than the earlier one exactly when it has all its humans |
| Delegation.ChainOfThreeWidens | src/multiplayer/services/agent_tasks.py:281-310 | three humans ask down one chain, and the lowest run is granted what the run above is refused |
| Delegation.SteeredAndResumedWidens | src/multiplayer/services/runs.py:307-354 | a run is steered and resumed, and the new one is granted what the steered one is refused |
| SearchIndex.IndexIsProjection | src/multiplayer/db/repositories.py:4364-4447 | after every run of writes the index is exactly what a backfill would compute, so a backfill changes nothing |
| SearchIndex.IndexSaysItsRows | src/multiplayer/db/repositories.py:4364-4447 | after every run of writes there is one document for each artifact's current version and for each task, output and decision, and no other, with its row's room, container, words, author and time |
| SearchIndex.RowsWritten | src/multiplayer/db/repositories.py:4758-4813 | which writes the keys let through, and the row each leaves |
| SearchIndex.VersionKeepsIff | src/multiplayer/db/repositories.py:4758-4813 | inserting a version keeps that exactly when its number exceeds all earlier ones of its artifact |
| SearchIndex.UpdateKeepsIff | src/multiplayer/db/repositories.py:3299-3336 | updating a task keeps that exactly when the task exists |
| SearchIndex.BackfillFills | src/multiplayer/db/repositories.py:4405-4447 | a backfill keeps every document there is and adds exactly the missing ones |
| SearchIndex.BackfillCompletes | src/multiplayer/db/repositories.py:4405-4447 | from any part of the projection a backfill computes the whole |
| SearchIndex.Repos.InsertVersion | src/multiplayer/db/repositories.py:4758-4813 | inserts a version and makes it its artifact's only searchable one, or changes nothing |
| SearchIndex.Repos.InsertItem | src/multiplayer/db/repositories.py:6008-6037 | inserts a task, output or decision with its document, or changes nothing |
| SearchIndex.Repos.RewriteTask | src/multiplayer/db/repositories.py:3319-3336 | rewrites a task's title and its document |
| Ontology.OntologyRepo.MaterializeBatch | src/multiplayer/db/repositories.py:5242-5346 | the loop's rows, its count of written entities and the reviewed assertions it found in disagreement |
| Ontology.EveryRunIsForward | src/multiplayer/db/repositories.py:5272-5290 | over any passes asserted_at_sequence never decreases and a reviewed row is never rewritten |
| Ontology.WritesNothingIff | src/multiplayer/db/repositories.py:5272-5290 | a batch writes nothing exactly when each account meets a row that is no older, agrees or is reviewed |
| Ontology.LastWordStands | src/multiplayer/db/repositories.py:5272-5290 | after a pass a row says, column by column, the last account that took it over, being new, or later and different over a row nobody reviewed; without one it is as it was |
| Ontology.ReconciledIff | src/multiplayer/db/repositories.py:5272-5311 | the objects a pass reports are exactly those whose row, as it leaves them, is reviewed, older than one of its accounts and different from it |
| Ontology.MaterializeTwice | src/multiplayer/db/repositories.py:5251-5262 | a second pass over a batch without an out-of-order pair leaves the same rows and writes nothing |
| Ontology.AlwaysQuietIff | src/multiplayer/db/repositories.py:5272-5290 | for one batch, a second pass writes nothing whatever the rows are, if and only if no account is later than, and disagrees with, the last of a chain of ever later accounts of its object that a pass may write one after another |
| Ontology.QuietIffConsistent | src/multiplayer/db/repositories.py:5272-5290 | for all rows and all selections of a batch's accounts a second pass writes nothing, if and only if no account of an object comes after a later, different one |
| Ontology.SecondPassWritesIff | src/multiplayer/db/repositories.py:5272-5290 | for given rows a second pass writes if and only if the first skipped an account as agreeing with an older row and let an earlier, different account of that object have the last word |
| Ontology.PassesFallQuiet | src/multiplayer/db/repositories.py:5272-5290 | however often a batch is materialized, no pass after the first as many as it has accounts writes anything |
| Ontology.DisorderMayBeHarmless | src/multiplayer/db/repositories.py:5272-5290 | an out-of-order pair does no harm where a yet later account agrees with the first |
| Ontology.DisorderRewrites | src/multiplayer/db/repositories.py:5272-5290 | where a batch gives an object's later account first, over an older row that agrees with it, the earlier rewrites the row, the second pass writes the later, and the third nothing |
| ShareMarkdown.RenderShareMarkdown | src/multiplayer/api/share_page.py:31-90 | for every text the page is well nested with every tag closed, is the blocks of the grammar, shows what is kept of each line once and in order, and as written holds no tag but the fixed ones and no quote |
| ShareMarkdown.PageIsNested | src/multiplayer/api/share_page.py:36-90 | list items only in lists, other blocks only at the top, text never directly in a list, everything closed |
| ShareMarkdown.PageShowsTheLines | src/multiplayer/api/share_page.py:53-90 | no line is lost, repeated or moved past another while paragraphs wait to be flushed |
| ShareMarkdown.PageFollowsTheGrammar | src/multiplayer/api/share_page.py:53-90 | the one pass with its flags and pending paragraph gives the blocks of a grammar: code between fences, headings, lists of neighbouring bullets, paragraphs of neighbouring lines, which a blank line ends |
| ShareMarkdown.KindIsItsShape | src/multiplayer/api/share_page.py:22-23 | a line is a fence, a heading of a level, a bullet with this text or blank exactly by its shape |
| ShareMarkdown.ParagraphIsWritten | src/multiplayer/api/share_page.py:40-46 | a paragraph is its lines through the inline passes, one space between two, between its tags |
| ShareMarkdown.CodeIsWritten | src/multiplayer/api/share_page.py:53-67 | a code block is its lines as they are, each ended, between its tags |
| ShareMarkdown.ElementIsWritten | src/multiplayer/api/share_page.py:68-83 | a heading or a list item is its text through the inline passes between its own tags |
| ShareMarkdown.PageIsInert | src/multiplayer/api/share_page.py:34-36 | every piece of text that goes into the page is free of angle brackets and quotes |
| ShareMarkdown.EscapeReadsBack | src/multiplayer/api/share_page.py:34-34 | escaping loses nothing: read back through the five entities it is the text |
| ShareMarkdown.LinesJoin | src/multiplayer/api/share_page.py:34-34 | the lines, joined by newlines, are the text, and no line holds one |
| ShareMarkdown.PageIsTagged | src/multiplayer/api/share_page.py:31-90 | every angle bracket of the page as written, inline passes included, is of one of its fixed tags |
| ShareInline.InlineIsTagged | src/multiplayer/api/share_page.py:20-28 | escaped text comes out of both inline passes with no tag but the fixed ones |
| ShareInline.InlineKeepsText | src/multiplayer/api/share_page.py:20-28 | the two passes lose and move no text: without tags, backticks and stars it reads as before |
| ShareInline.CodePassPairs | src/multiplayer/api/share_page.py:20-27 | the first two backticks around something become its tags and the pass goes on behind them; text with fewer stays |
| ShareInline.BoldPassPairs | src/multiplayer/api/share_page.py:21-28 | the same of double stars |
| ShareInline.InlineMayCross | src/multiplayer/api/share_page.py:26-28 | a line on which the tags of the two passes cross |

## Left out

- `EventRepo.append` and `get_next_sequence` split counter from row, so the chain's invariant does not hold through them.
- Of the erase step: everything but `room_events`, `event_redactions` and the announcement (message, branch, search and attachment copies).
- Of `Database`: `execute_script`, which commits first; statements that themselves say BEGIN or COMMIT; errors on which SQLite rolls back by itself; the pool of readers; a ROLLBACK that fails. A task cancelled again during the last ROLLBACK keeps the lock for ever; that step is in the model, and progress is proved of undisturbed transactions only.
- Connection, Handover and Fanout model interleaved coroutines as state machines on values, so nothing is said there about update in place.
- SettlementStore.Repos.StartBranchInTransaction: a start under an idempotency key that was used before, which returns the branch it names and writes nothing, is not part of this model.
- SettlementStore.Repos.StartTaskInTransaction: the asker's caller row, which the same transaction writes, is in `Delegation` instead.
- RateLimiter.RetryAfterSuffices: a bucket may be shared, and others may have filled the fresh window before the client comes back.
- Of the settlement tables: columns no guard reads (timestamps other than `settled_at`, errors, token usage, refusal reasons, event sequences), the search index row of an output, messages said to tasks outside a settlement. The triggers on identity, challenge and membership are one flag per launch.
- The generic writers that step around the kernel (`BranchRepo.update_status`, `TurnLockRepo.release`, `update_status` into a terminal status) and starting an execution into a managed branch are outside the permitted client steps.
- `attempts` of a run created by resuming another may start beyond `max_attempts`; the kernel then never raises it.
- A socket without a replay cursor, the membership check it repeats at every delivery, the reauthentication heartbeat, presence and the other client messages of the WebSocket handler.
- Broadcasts of one room that overtake each other: the handover assumes sequence order, as the client's own continuity check does.
- `new_id` never repeats: a subscription id drawn twice would break the hub's index, as the source's own comment recounts.
- Of the fan-out: reconnecting with backoff and the messages it drops as malformed; the hub it hands to is `Hub`'s.
- The rate limiter's request exemptions and header parsing; a request is its token or cookie digest and its address.
- Ontology relationships, staleness and review.
- Of the search index: the queries over it, and the kinds that are not backfilled.
- Of capabilities: the agent, skill, channel and workspace terms, and postures; a run's user term is what bounds it here. Delegation is modelled on values; the gates before a task opens only refuse.
- The page around the rendered text.
- HTTP routes, sign-in, model providers, harness adapters and metrics.
