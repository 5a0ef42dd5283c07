# NexaPilot core: a verified model

This project models the core of NexaPilot, an agent runtime, in Dafny and proves what it promises:

1. **Goal -> Plan -> Task runtime.** Validation of task graphs with Kahn's algorithm, the per-task state machine,
   wake-up of children, the failure cascade, plan closing, optimistic revisions and the append-only event log.
   `TaskRuntimeService` updates its tables in place with the loops of the program; every method is proved to perform
   one transaction of `TaskModel`, and the theorems are about arbitrary interleavings of these transactions.
2. **Conversation history.** The turn loop stores parts and tool messages, user messages arrive at any time, the Context
   Manager selects, shortens and compacts runs under a token budget, and the projection rebuilds the provider protocol.
   The end-to-end theorem is about every history that the runs and the users of a session can leave: every selection
   pairs calls with outputs, and for the unselected projection the exact condition is given.
3. **Memory index.** The sliding-window chunker and the incremental sync of files into tables of chunks.
4. **Provider gateway and router.** Retries nested in fallbacks under one shared attempt budget, for every behaviour
   of the providers, and the route plan that feeds them.
5. **Two smaller protocols.** Checkpointed processing under redelivery, and redaction and restoration of secrets in
   nested configuration.

## Modules

| files | component |
|---|---|
| `DependencyGraph`, `Kahn`, `SpecValidation` | dependency graphs, the pop loop, plan validation |
| `TaskModel`, `TaskLog`, `TaskSafety`, `TaskCreation`, `TaskRuns`, `TaskProgress`, `TaskRecovery`, `TaskBudget`, `TaskBudgetRun`, `TaskRecoveryRun`, `TaskEffects`, `TaskTimes`, `TaskRuntime` | transactions, invariants, what each transaction writes, runs, driving a plan to its end, bounds, example runs, the service |
| `Conversation`, `Projection`, `ProjectionPairing`, `ProjectionContent`, `RoundTrip`, `Interleaving` | stored history, truncation, projection: its order and its content, replay of rounds, user messages between calls and outputs |
| `ContextManager`, `ContextBudget`, `ContextPairing`, `SelectionRule`, `Shortening`, `HistoryGrouping` | selection and its rule, what shortening leaves, budget arithmetic, pairing after pruning, grouping by run |
| `RunLoop`, `RunBounds`, `RunHistory`, `RunContent`, `RunReplay`, `SessionHistory`, `SessionContent` | the turn loop, its length, what it stores and replays, whole sessions |
| `Chunking`, `ChunkingCoverage`, `ChunkingContent`, `ChunkingSize`, `MemoryIndex`, `MemorySync` | chunker and index |
| `Gateway`, `GatewaySafety`, `GatewayRetries`, `Routing`, `RoutingSafety`, `RoutingRule` | gateway and router: limits, and the exact rules |
| `Checkpoints`, `CheckpointSafety`, `ConfigSecrets` | the smaller protocols |
| `Wrappers`, `Sequences` | helpers |

## What the proofs found

Where the code differs from what one would expect of it, the model follows the code.

- **Untrimmed keys.** `_validate_specs` compares stripped keys but files dependencies under raw keys, so a key with
  surrounding white space ends in a failed lookup (`KeyMissing`), not in a validation error; `ValidateSpecs` says
  exactly when, and creation reports it as `LookupFailed`.
- **Repeated dependencies.** A `depends_on` list with a repeated entry passes validation and is refused by the primary
  key of the dependency table; nothing is stored (`IntegrityFailure`).
- **Status changes.** A failed task may still be cancelled, so a task can see `3 * max_attempts + 1` status changes;
  without such a late cancellation the bound is `3 * max_attempts`.
- **Ready tasks below a failure.** The cascade also looks for ready tasks; it never meets one (`CascadeIsExact`).
- **Going back to pending.** `paused -> pending` skips the dependency check. A task without dependencies that is
  paused and sent back is never woken, and its active plan has no task to act on (`PendingLosesProgress`). A run keeps
  the progress invariants if and only if every such request finds a dependency still open and nothing failed or
  cancelled above (`RunStaysLiveIff`).
- **Messages inside a run.** `add_user_message` does not take the session's lock, so a user message can be stored
  between a call and its output. The history that the loop reloads is then projected with the message in between,
  which breaks the provider protocol (`LateMessageSeparates`). It happens exactly when the call's assistant message is
  not replayed in rounds (`ProjectionPairsIffUndisturbed`); a selection by the Context Manager, off by default, never
  has this fault.
- **Blocked tasks.** A task that is paused below a failed or cancelled dependency has no step forward of its own. A
  failed dependency can be reopened, so the plan may still end by steps forward alone (`BlockedPlanRecovers`); it can
  exactly when no open task depends on a cancelled one, directly or through others (`ForwardEndsIff`).
- **Model rounds.** With a tool budget a run takes at most `max_tool_calls + 2` rounds plus one for each round in
  which the provider neither calls a tool nor says why it stopped, whatever the turn limit; both parts of the bound
  are reached. The number of silent rounds is not limited once the tool budget is exhausted (`SilenceIsUnbounded`).
- **State over chat completions.** The router asks whether a target supports provider state, not whether the transport
  does. With effort `none` a request that must replay state can be planned over chat completions, which drop it
  (`StateIsDropped`); `RouteCarriesState` gives the exact guard.
- **Repetitive lines.** Three equal full segments on one line give two chunks the same lines and text, hence the same
  identifier; the primary key refuses the second, and the sync fails. For the indexer's widths a line of three
  thousand equal characters does this (`RepetitiveFileFails`). A sync succeeds exactly when no file it must store
  repeats a chunk.
- **Empty fallback lists.** A route that lists no fallback category falls back on the default categories
  (`EmptyListStillFallsBack`).
- **No attempts.** With no attempts configured a stream would succeed without asking anyone
  (`NoAttemptsSucceedsEmpty`); loading the configuration forces at least one.

## Model

| member | source | states |
|---|---|---|
| `DependencyGraph.AcyclicIffNoCycle` | src/nexapilot/task_runtime/service.py:138-151 | a rank function on the dependencies exists if and only if no task depends on itself through any number of steps |
| `DependencyGraph.StuckHasCycle` | src/nexapilot/task_runtime/service.py:148-151 | a non-empty set in which every task has a dependency inside the set contains a cycle |
| `Kahn.PopAll` | src/nexapilot/task_runtime/service.py:138-147 | the pop loop visits each key at most once, in topological order, and what is left over is blocked by what is left over |
| `Kahn.PopsDecide` | src/nexapilot/task_runtime/service.py:148-151 | as many pops as keys exactly when a rank exists, fewer exactly when there is a cycle |
| `Kahn.PoppedAllIsAcyclic` | src/nexapilot/task_runtime/service.py:148-151 | soundness of acceptance: if all keys were popped, the pop order is a rank |
| `Kahn.LeftoverHasCycle` | src/nexapilot/task_runtime/service.py:148-151 | soundness of rejection: if a key was not popped, the dependencies have a cycle |
| `SpecValidation.Tabulate` | src/nexapilot/task_runtime/service.py:120-136 | the tables hold exactly the rows of the specifications, or the first offending specification is reported |
| `SpecValidation.CountPops` | src/nexapilot/task_runtime/service.py:138-151 | counting pops decides acyclicity, both ways |
| `SpecValidation.ValidateSpecs` | src/nexapilot/task_runtime/service.py:113-151 | accepts exactly the lists with trimmed, unique, known keys and no cycle, and classifies every rejection |
| `TaskLog.DenseAppend` | src/nexapilot/task_runtime/service.py:170-175 | numbering an event after the goal's largest number keeps each goal's numbers 1, 2, 3, ... without gaps |
| `TaskLog.MoveAllLogs` | src/nexapilot/task_runtime/service.py:944-1016 | any number of wake-ups or cascade closings keeps the log sound: each entry starts from the replayed status and follows an allowed edge |
| `TaskSafety.AncestorsCompleted` | src/nexapilot/task_runtime/service.py:869-879 | completed tasks are closed downwards: all transitive dependencies of a ready, running, waiting or completed task are completed |
| `TaskEffects.RequestOutcome` | src/nexapilot/task_runtime/service.py:842-879 | which requests are accepted: for the current revision, along an allowed change, by an owner who may make it, to ready only with completed dependencies; otherwise unknown task, conflict or validation error |
| `TaskEffects.RequestWritesRow` | src/nexapilot/task_runtime/service.py:880-1016 | field by field, what an accepted request writes: status (a retry without attempts left fails), attempt, revision, retry time (now plus delay exactly for a waiting task); woken and closed tasks change their status and revision only, all other rows stay |
| `TaskEffects.RetryIsDueOnTime` | src/nexapilot/task_runtime/service.py:649-665 | an agent's task that waits for a retry is due at a time if and only if its delay has elapsed |
| `TaskEffects.PollReleasesOnTime` | src/nexapilot/task_runtime/service.py:640-671 | a poll of its active plan makes the task ready exactly from that time on |
| `TaskEffects.RequestClosesPlan` | src/nexapilot/task_runtime/service.py:1018-1062 | plan and goal end together exactly when the last open task ends: failed if a task of the plan failed, completed otherwise |
| `TaskEffects.RequestTells` | src/nexapilot/task_runtime/service.py:911-1062 | the entries an accepted request adds to the log: its own change, one for each task that follows, two for a closing |
| `TaskTimes.RunIsTimed` | src/nexapilot/task_runtime/service.py:880-887 | in every state of every run, exactly the waiting tasks have a retry time |
| `TaskTimes.EveryReadyTaskIsOffered` | src/nexapilot/task_runtime/service.py:678-690 | so a poll offers every ready task of an agent, whatever the time |
| `TaskSafety.TransitionReadiness` | src/nexapilot/task_runtime/service.py:869-951 | a transition keeps: started, startable or finished tasks have only completed dependencies |
| `TaskSafety.TransitionSafe` | src/nexapilot/task_runtime/service.py:816-1064 | a transition keeps every safety invariant (links, acyclicity, readiness, open plans, faithful log), accepted or not |
| `TaskSafety.BranchIsShut` | src/nexapilot/task_runtime/service.py:967-1016 | after a failure or cancellation every transitive descendant is failed, cancelled or paused |
| `TaskSafety.TransitionLive` | src/nexapilot/task_runtime/service.py:816-1064 | no wake-up is lost and closed branches stay shut, for every request except one for pending |
| `TaskSafety.PendingRequest` | src/nexapilot/task_runtime/service.py:54-54 | a request for pending keeps these two properties if and only if the task still has an open dependency and no closed ancestor |
| `TaskRecoveryRun.PendingLosesProgress` | src/nexapilot/task_runtime/service.py:54-54 | a run from empty tables with such a request that loses progress: the plan is active and none of its tasks is actionable |
| `TaskSafety.HoldKeeps` | src/nexapilot/task_runtime/service.py:695-748 | pausing and resuming a goal keeps every invariant |
| `TaskEffects.HoldOutcome` | src/nexapilot/task_runtime/service.py:706-726 | which holds and resumptions are accepted |
| `TaskEffects.HoldWrites` | src/nexapilot/task_runtime/service.py:727-748 | the goal's status and revision change, with one entry, and nothing else |
| `TaskSafety.TakeoverKeeps` | src/nexapilot/task_runtime/service.py:1069-1143 | changing the owner of a task keeps every invariant |
| `TaskEffects.TakeoverOutcome` | src/nexapilot/task_runtime/service.py:1081-1109 | which changes of owner are accepted |
| `TaskEffects.TakeoverWrites` | src/nexapilot/task_runtime/service.py:1110-1143 | the task's mode and revision change, with one entry, and nothing else |
| `TaskSafety.ReorderKeeps` | src/nexapilot/task_runtime/service.py:750-814 | reordering a plan keeps every invariant |
| `TaskEffects.ReorderOutcome` | src/nexapilot/task_runtime/service.py:759-787 | a reorder is accepted exactly if it lists every task of the active plan once, at the plan's revision |
| `TaskEffects.ReorderWrites` | src/nexapilot/task_runtime/service.py:788-814 | the tasks get their listed places, they and the plan one more revision, and nothing else changes |
| `TaskSafety.PositionedRow` | src/nexapilot/task_runtime/service.py:789-793 | a listed task gets its index as position and one revision more; other rows stay |
| `TaskSafety.PollKeeps` | src/nexapilot/task_runtime/service.py:627-693 | releasing due retries keeps every invariant |
| `TaskEffects.PollWritesRows` | src/nexapilot/task_runtime/service.py:649-671 | a poll makes exactly the due tasks ready, without a retry time, and changes no other row |
| `TaskCreation.IdOfKnownKey` | src/nexapilot/task_runtime/service.py:262-297 | looking up the key of a specification gives the identifier of its row |
| `TaskCreation.NewDepsAcyclic` | src/nexapilot/task_runtime/service.py:293-298 | the rank of the keys is a rank of the inserted rows |
| `TaskCreation.CreateGoalKeeps` | src/nexapilot/task_runtime/service.py:301-372 | creating a goal keeps every invariant |
| `TaskCreation.CreatePlanKeeps` | src/nexapilot/task_runtime/service.py:374-458 | replanning keeps every invariant |
| `TaskEffects.CreationOutcome` | src/nexapilot/task_runtime/service.py:306-396 | which creations are accepted, and how the others are reported |
| `TaskEffects.CreateGoalWrites` | src/nexapilot/task_runtime/service.py:301-372 | the rows of the new tasks field by field, a dependency row for each named key and no other, the new plan and goal, and the entries |
| `TaskEffects.CreatePlanWrites` | src/nexapilot/task_runtime/service.py:374-458 | the same for a new plan; the previous plan is superseded, and the goal turns to the new one |
| `TaskRuns.StepKeeps` | src/nexapilot/task_runtime/service.py:301-1143 | every one of the seven transactions keeps all invariants |
| `TaskRuns.RunIsSafe` | src/nexapilot/task_runtime/service.py:301-1143 | the safety invariants hold in every state of every run |
| `TaskRuns.RunIsLive` | src/nexapilot/task_runtime/service.py:301-1143 | so do the progress invariants, if every accepted request for pending meets its condition |
| `TaskRuns.RunStaysLiveIff` | src/nexapilot/task_runtime/service.py:301-1143 | the progress invariants hold in all states of a run if and only if every accepted request for pending meets its condition |
| `TaskRuns.Progress` | src/nexapilot/task_runtime/service.py:816-1064 | an active plan has a task that is ready, running, waiting or paused and whose dependencies are all decided |
| `TaskRuns.RunNeverDeadlocks` | src/nexapilot/task_runtime/service.py:816-1064 | in every such run, while a plan is active the next step of some task of it is accepted: a step forward (ready, running or completed), or the cancellation of a task that is paused below a failed or cancelled dependency |
| `TaskRuns.BlockedCannotAdvance` | src/nexapilot/task_runtime/service.py:869-879 | for a task paused below a failed or cancelled dependency every accepted request on it cancels it or sends it back to pending |
| `TaskRecovery.PlanCanClose` | src/nexapilot/task_runtime/service.py:816-1064 | from every state of such a run an active plan is closed by at most three accepted requests for each open task; if no open task depends on a cancelled one, by steps forward alone, three for each open task and each failed one that open tasks depend on; all these complete, and the plan fails exactly if some other task had failed |
| `TaskRecovery.ForwardEndsIff` | src/nexapilot/task_runtime/service.py:49-58 | requests for ready, running or completed alone, on any tasks, accepted or refused, can end an active plan if and only if no open task depends on a cancelled one, directly or through others |
| `TaskRecovery.UnblockedNeedsOpen` | src/nexapilot/task_runtime/service.py:816-1064 | if no open task has a failed or cancelled dependency, none has one further up, and nothing has to be reopened |
| `TaskRecoveryRun.BlockedPlanRecovers` | src/nexapilot/task_runtime/service.py:49-58 | a run from empty tables after which a task is paused below a failed one; at most six steps forward end its plan completed |
| `TaskProgress.CalmRunIsUnblocked` | src/nexapilot/task_runtime/service.py:816-1064 | in runs without pauses and reopenings no open task ever has a failed or cancelled dependency, so every active plan can be closed by steps forward without reopening any task |
| `TaskRuns.CascadeIsExact` | src/nexapilot/task_runtime/service.py:967-1016 | a failure or cancellation changes the task and exactly the pending transitive descendants, and leaves every descendant shut |
| `TaskRuns.WakeUpIsExact` | src/nexapilot/task_runtime/service.py:931-966 | a completion wakes exactly the pending children all of whose other dependencies are completed |
| `TaskRuns.RevisionNamesRow` | src/nexapilot/task_runtime/service.py:855-858 | over a whole run revisions never fall, and equal revisions mean equal rows |
| `TaskRuns.NoStaleSuccess` | src/nexapilot/task_runtime/service.py:855-858 | a request that succeeds was made against the row its caller had read |
| `TaskRuns.LogTellsHistory` | src/nexapilot/task_runtime/service.py:153-238 | the log of any later state replays to the statuses of every earlier state |
| `TaskBudget.TransitionMoves` | src/nexapilot/task_runtime/service.py:912-1016 | how many log entries each task gains in an accepted transition |
| `TaskBudget.StatusChangesAreBounded` | src/nexapilot/task_runtime/service.py:880-886 | without pauses and reopenings a task sees at most three status changes for each attempt, one more with a late cancellation; attempts stay within the limit |
| `TaskBudgetRun.LateCancellationExceedsThree` | src/nexapilot/task_runtime/service.py:49-58 | for every limit there is a run in which a task sees one status change more than three for each attempt, so the late cancellation cannot be left out of the bound |
| `TaskRuntime.TaskRuntimeService.AppendEvent` | src/nexapilot/task_runtime/service.py:153-205 | the event gets the goal's next number |
| `TaskRuntime.TaskRuntimeService.InsertTasks` | src/nexapilot/task_runtime/service.py:262-292 | one row per specification and a complete table of identifiers by key |
| `TaskRuntime.TaskRuntimeService.InsertAllDependencies` | src/nexapilot/task_runtime/service.py:293-298 | succeeds exactly when no dependency list repeats an entry, and then stores exactly the rows |
| `TaskRuntime.TaskRuntimeService.CreateGoal` | src/nexapilot/task_runtime/service.py:301-372 | performs the transaction or reports the first failing check and changes nothing |
| `TaskRuntime.TaskRuntimeService.WriteNewPlan` | src/nexapilot/task_runtime/service.py:374-458 | inserts the new plan, steps the previous one down and turns the goal to it, or restores the rows when a dependency row repeats |
| `TaskRuntime.TaskRuntimeService.CreatePlan` | src/nexapilot/task_runtime/service.py:374-458 | the same for replanning |
| `TaskRuntime.TaskRuntimeService.WakeChildren` | src/nexapilot/task_runtime/service.py:931-966 | the loop over the children moves exactly the woken ones, each once |
| `TaskRuntime.TaskRuntimeService.CollectBlocked` | src/nexapilot/task_runtime/service.py:972-982 | the fixed-point loop ends and collects exactly the task and its transitive descendants |
| `TaskRuntime.TaskRuntimeService.CloseBranch` | src/nexapilot/task_runtime/service.py:983-1016 | the cascade moves exactly the doomed tasks of the plan, each once |
| `TaskRuntime.TaskRuntimeService.CloseFinishedPlan` | src/nexapilot/task_runtime/service.py:1018-1063 | the plan and its goal are closed exactly when every task of the plan is terminal |
| `TaskRuntime.TaskRuntimeService.TransitionTask` | src/nexapilot/task_runtime/service.py:816-1064 | outcome and new tables are those of the transaction, the invariant is kept, and the task's row is written field by field as `TaskEffects.RequestWritesRow` says |
| `TaskRuntime.TaskRuntimeService.ReadyTasks` | src/nexapilot/task_runtime/service.py:627-693 | releases exactly the due retries and offers exactly the startable tasks, most urgent first |
| `TaskRuntime.TaskRuntimeService.SetGoalPaused` | src/nexapilot/task_runtime/service.py:695-748 | outcome and new tables are those of the transaction |
| `TaskRuntime.TaskRuntimeService.ReorderPlan` | src/nexapilot/task_runtime/service.py:750-814 | outcome and new tables are those of the transaction |
| `TaskRuntime.TaskRuntimeService.TakeoverTask` | src/nexapilot/task_runtime/service.py:1069-1143 | outcome and new tables are those of the transaction |
| `Conversation.TruncateParts` | src/nexapilot/memory/context.py:230-276 | the loops shorten every part of every message and nothing else |
| `Conversation.TruncationBounds` | src/nexapilot/memory/context.py:203-214 | no text anywhere in a truncated value is longer than the limit |
| `Conversation.TruncationFixes` | src/nexapilot/memory/context.py:194-214 | truncation changes a value exactly when one of its texts is too long |
| `Shortening.TruncationOnlyCuts` | src/nexapilot/memory/context.py:194-276 | a truncated message has the same parts; each text is itself, or its beginning and the marker at full length |
| `Shortening.CompactionOnlyPrunes` | src/nexapilot/memory/context.py:302-322 | compaction takes out provider state, the calls outside the kept ones and their answers, and leaves everything else as it was |
| `Projection.PutCallIds` | src/nexapilot/loop/session_loop.py:2187-2191 | a call seen again keeps its place among the calls |
| `Projection.Projector.Flush` | src/nexapilot/loop/session_loop.py:2144-2169 | emits the round with its state items, joined texts, joined reasoning and calls, and then the known outputs of its calls; notes them as consumed and clears the lists |
| `Projection.Projector.AppendResponsesRounds` | src/nexapilot/loop/session_loop.py:2131-2202 | emits the rounds of the message in order, each followed by its outputs; what they say is `ProjectionContent.ProjectionSaysAll` |
| `Projection.ToOpenAiMessages` | src/nexapilot/loop/session_loop.py:2044-2128 | the loop computes the projection of the history; what it says is `ProjectionContent.ProjectionSaysAll` |
| `ProjectionContent.ProjectionSaysAll` | src/nexapilot/loop/session_loop.py:2044-2202 | for every history: the texts and the reasoning of all assistant messages, the user messages, and the accepted state items of the replayed run are shown, each once and in order, and no others |
| `ProjectionContent.WholeMessageSays` | src/nexapilot/loop/session_loop.py:2086-2121 | a message that is not split shows no state, all its texts and reasoning, and its calls |
| `ProjectionContent.CallsInShows` | src/nexapilot/loop/session_loop.py:2104-2115 | each call is shown once, in order of first appearance, with the name and arguments of its last part: raw text while it is pending, the input otherwise |
| `ProjectionContent.OutputsSay` | src/nexapilot/loop/session_loop.py:2059-2073 | each output that is shown is the text of a tool message, under the identifier of its call |
| `ProjectionPairing.PairedIffByPosition` | src/nexapilot/loop/session_loop.py:2050-2056 | a projected list pairs up if and only if each call is answered at its own offset behind the message that makes it and each output answers such a call |
| `ProjectionPairing.RoundsPartitionCalls` | src/nexapilot/loop/session_loop.py:2171-2202 | splitting a message into rounds neither repeats, drops nor reorders a call |
| `ProjectionPairing.GroupProjects` | src/nexapilot/loop/session_loop.py:2082-2128 | an assistant message and its answers pair up, split into rounds or not |
| `ProjectionPairing.ProjectionIsPaired` | src/nexapilot/loop/session_loop.py:2044-2202 | for every choice of replayed state: calls and outputs pair up, each call is advertised once, each stored output is shown once |
| `RoundTrip.AbsorbRound` | src/nexapilot/loop/session_loop.py:2171-2201 | what one stored round adds to the round being rebuilt |
| `RoundTrip.RoundsSurviveStorage` | src/nexapilot/loop/session_loop.py:2131-2202 | storing rounds and splitting them again is the identity if and only if every later round starts with a state item, every round but the last holds text or a call, and the last is not empty |
| `ContextManager.GroupUnits` | src/nexapilot/memory/context.py:163-174 | groups messages by run in order of first appearance |
| `ContextManager.CompactUnit` | src/nexapilot/memory/context.py:302-322 | keeps the wanted answers, drops provider state and the other calls |
| `ContextManager.TruncateUnit` | src/nexapilot/memory/context.py:216-228 | the first limit at which the unit fits, otherwise its newest cycles |
| `ContextManager.CompactToolCycles` | src/nexapilot/memory/context.py:278-334 | tries to keep all cycles but one, then fewer |
| `ContextManager.NothingFits` | src/nexapilot/memory/context.py:188-190 | leaving the loop early changes nothing |
| `ContextManager.SelectRecentUnits` | src/nexapilot/memory/context.py:157-192 | the backward walk computes the selection; which units it keeps, and how, is `SelectionRule.SelectionFollowsRule` |
| `SelectionRule.SelectionFollowsRule` | src/nexapilot/memory/context.py:157-228 | from the newest unit on, with what remains of the budget: kept whole if it fits; else truncated at the first of the eight widths at which it fits; else reduced to the largest number of newest cycles that fits, at the first of five widths; else dropped |
| `SelectionRule.DroppedIff` | src/nexapilot/memory/context.py:176-192 | a unit is dropped if and only if it fits neither whole nor at any width nor with any number of cycles |
| `SelectionRule.RuleDecides` | src/nexapilot/memory/context.py:176-192 | the rule leaves no choice |
| `ContextBudget.PickWithinBudget` | src/nexapilot/memory/context.py:176-192 | the selected messages never cost more than the budget |
| `ContextBudget.AllFits` | src/nexapilot/memory/context.py:176-192 | nothing is dropped or shortened when everything fits |
| `ContextBudget.CompactionIsLargest` | src/nexapilot/memory/context.py:278-334 | compaction keeps the largest number of newest cycles that fits, and gives up only if none does |
| `ContextBudget.Build` | src/nexapilot/memory/context.py:58-140 | history and memory stay within their budgets; the overflow is exactly max(0, system + reserved - limit); an error exactly when the limit does not exceed the reserve |
| `ContextPairing.TruncationKeeps` | src/nexapilot/memory/context.py:230-276 | truncation keeps calls, answers and their order |
| `ContextPairing.CompactionKeeps` | src/nexapilot/memory/context.py:278-334 | compaction to any set of calls keeps exactly these calls with their answers |
| `ContextPairing.SelectionIsPaired` | src/nexapilot/memory/context.py:157-334 | for every budget, selecting and then projecting a well-formed history pairs calls and outputs |
| `RunLoop.SessionLoop.PrepareToolCall` | src/nexapilot/loop/session_loop.py:1445-1611 | stores a pending part and, if the tool starts, a running part |
| `RunLoop.SessionLoop.PersistToolOutcome` | src/nexapilot/loop/session_loop.py:1858-1988 | stores the outcome as the final part of the call and as a tool message with its output, under the identifiers of call and run |
| `RunLoop.SessionLoop.ExecuteSequentialToolBatch` | src/nexapilot/loop/session_loop.py:1345-1382 | one answer per call, in call order, each with the output of its call |
| `RunLoop.SessionLoop.ExecuteParallelToolBatch` | src/nexapilot/loop/session_loop.py:1384-1443 | one answer per call, in call order, each with the output of its call, whichever calls started |
| `RunLoop.SessionLoop.PersistToolBudgetOutcomes` | src/nexapilot/loop/session_loop.py:1026-1075 | one answer per rejected call, in call order, each with the notice |
| `RunLoop.SessionLoop.Turn` | src/nexapilot/loop/session_loop.py:401-949 | one iteration of the loop: limits, stream, batch or rejection, finish |
| `RunLoop.SessionLoop.Run` | src/nexapilot/loop/session_loop.py:401-949 | the loop computes the run of the script |
| `RunContent.CallsAreRecorded` | src/nexapilot/loop/session_loop.py:1858-1988 | in every later state of a run: each call that ran is answered with its own output, and its last part has its input and output, as an error exactly if it failed; each refused call has the notice |
| `RunContent.StepCounts` | src/nexapilot/loop/session_loop.py:401-949 | what an iteration counts, and the reason given when the run ends with it |
| `SessionContent.OutputsReachProvider` | src/nexapilot/loop/session_loop.py:2044-2128 | in every session, wherever user messages arrive and whatever state is replayed, the provider is shown the output of each call that ran under its identifier, and nothing else under it |
| `RunBounds.ExecutedWithinBudget` | src/nexapilot/loop/session_loop.py:808-822 | executed calls never exceed the tool budget, for every provider |
| `RunBounds.RoundsAreBounded` | src/nexapilot/loop/session_loop.py:401-949 | for every provider: at most two rounds more than the tool budget, plus one for each silent round, and at least one for each; no silent rounds if rounds without calls say why they stopped |
| `RunBounds.RoundBoundIsReached` | src/nexapilot/loop/session_loop.py:401-949 | for every limits and every number of silent rounds there is a run of exactly that many rounds, without repeated call identifiers |
| `RunBounds.SilenceIsUnbounded` | src/nexapilot/loop/session_loop.py:940-949 | after the budget is exhausted, silent rounds keep the loop going for any number of rounds |
| `RunHistory.BatchPathsAgree` | src/nexapilot/loop/session_loop.py:1345-1443 | the sequential and the parallel path leave the same calls for the provider to see |
| `RunContent.BatchesOverlapIff` | src/nexapilot/loop/session_loop.py:1323-1443 | the second call of a batch is stored before the first has ended exactly for two or three calls of the task tool; otherwise the first one's ending comes first |
| `RunHistory.StepKeepsAnswering` | src/nexapilot/loop/session_loop.py:401-949 | every iteration keeps: each stored call has its answer, in call order, and no state item separates its parts |
| `RunHistory.RunKeepsAnswering` | src/nexapilot/loop/session_loop.py:401-949 | so does every run whose provider does not repeat call identifiers |
| `HistoryGrouping.UnitsAreRuns` | src/nexapilot/memory/context.py:163-174 | grouping any history gives one unit for each run, with exactly its messages in their order, and one for each message without a run |
| `Interleaving.ProjectionPairsIffUndisturbed` | src/nexapilot/loop/session_loop.py:2044-2202 | wherever user messages stand: every call and every stored output is shown once, in order, and they pair up if and only if no user message stands between an assistant message and an answer to its calls, a message replayed in rounds apart |
| `SessionHistory.UnitsLeadToRuns` | src/nexapilot/memory/context.py:163-174 | in every session the units are the runs, each with its trigger before it, and lone user messages, although user messages may arrive inside a run |
| `SessionHistory.SessionContextIsPaired` | src/nexapilot/loop/session_loop.py:2044-2202 | end to end: for every session of runs, wherever its user messages arrive, every budget and every choice of replayed state, the selection pairs calls and outputs, and the unselected projection does so exactly if undisturbed |
| `SessionHistory.LateMessageSeparates` | src/nexapilot/agents/service.py:117-151 | a user message that arrives before the output of a call separates the two in the reloaded history, whatever state is replayed, but not in a selection |
| `RunReplay.RunReplaysRounds` | src/nexapilot/loop/session_loop.py:2131-2202 | replaying the state of a run restores its rounds, each followed by its outputs, exactly when they are separable |
| `RunReplay.ReplayShowsSteps` | src/nexapilot/loop/session_loop.py:2131-2202 | the i-th message of a replayed separable run has the state items, the text and the reasoning of the i-th step, and its calls |
| `Chunking.Chunker.Flush` | src/nexapilot/memory/chunking.py:28-60 | emits the window and keeps its tail |
| `MemoryIndex.ChunkFile` | src/nexapilot/memory/manager.py:300-300 | the chunks of a file are those of the chunker with its default widths |
| `Chunking.ChunkMarkdown` | src/nexapilot/memory/chunking.py:12-80 | computes the chunks; an error exactly for a width of zero and a line to cut |
| `ChunkingCoverage.CarriedIsTail` | src/nexapilot/memory/chunking.py:49-60 | the carried-over tail is the shortest one with the overlap's characters, or everything |
| `ChunkingCoverage.ChunksCover` | src/nexapilot/memory/chunking.py:12-80 | chunks are contiguous ranges from the first to the last segment with their first and last lines; starts never fall, ends rise, each range continues with the tail of the one before, and each but the last is full |
| `ChunkingCoverage.OverlapsDropped` | src/nexapilot/memory/chunking.py:12-80 | without their overlaps the chunks are the segments, each once |
| `ChunkingContent.NothingIsLost` | src/nexapilot/memory/chunking.py:62-68 | the segments rebuild the content if and only if the width is positive or every line is empty |
| `ChunkingContent.PiecesAreFull` | src/nexapilot/memory/chunking.py:69-69 | every segment of a line but the last has exactly the width, and stands at its place in the line |
| `ChunkingContent.ChunksRebuildContent` | src/nexapilot/memory/chunking.py:12-80 | dropping the overlaps and rejoining by line number gives the content back |
| `ChunkingSize.ChunksAreBounded` | src/nexapilot/memory/chunking.py:54-75 | a chunk has at most twice the width plus the overlap characters, at most the width without overlap |
| `ChunkingSize.SizeBoundIsReached` | src/nexapilot/memory/chunking.py:69-75 | every width and overlap has a content whose last chunk is exactly that long |
| `ChunkingSize.PlainBoundIsReached` | src/nexapilot/memory/chunking.py:69-75 | without overlap a full line is a chunk of exactly the width |
| `MemoryIndex.CollectTexts` | src/nexapilot/memory/manager.py:318-326 | the i-th text has the i-th missing hash |
| `MemoryIndex.KeyTaken` | src/nexapilot/memory/store.py:222-240 | the primary key refuses exactly the second copy of a chunk of the file |
| `MemoryIndex.MemoryIndexManager.DeletePaths` | src/nexapilot/memory/store.py:256-264 | the rows of the paths go from all tables, the others stay |
| `MemoryIndex.MemoryIndexManager.ReplaceFile` | src/nexapilot/memory/store.py:200-254 | replaces the rows of the path in both tables, or changes nothing when a chunk is repeated |
| `MemoryIndex.MemoryIndexManager.EmbeddingsFor` | src/nexapilot/memory/manager.py:301-337 | every chunk gets the provider's answer to its own text, from the cache or fresh |
| `MemoryIndex.MemoryIndexManager.ReplaceMemoryFile` | src/nexapilot/memory/manager.py:297-341 | chunks, embeds and stores one file; what is stored is `MemorySync.SyncStoresChunks` |
| `MemoryIndex.MemoryIndexManager.Sync` | src/nexapilot/memory/manager.py:95-131 | computes the synced tables; stops at the first file that cannot be stored |
| `MemorySync.SyncMirrorsScan` | src/nexapilot/memory/manager.py:95-131 | a sync succeeds if and only if no file to be stored repeats a chunk; then the tables mirror the scan; the index stays consistent either way |
| `MemorySync.SyncStoresChunks` | src/nexapilot/memory/manager.py:297-341 | after a successful sync both tables have one row for each chunk of each file, in order, with its lines, text, hash, identifier and the provider's answer to its text; changed files have the scanned record, the others keep theirs |
| `MemorySync.UnchangedFileStays` | src/nexapilot/memory/manager.py:95-131 | a file with the recorded hash and size keeps its record and its rows, embeddings included, whatever provider and chunker would answer now and whether or not the sync succeeds |
| `MemorySync.SyncEqualsRebuild` | src/nexapilot/memory/manager.py:95-131 | after a successful sync a rebuild would succeed and hold the same rows in both tables |
| `MemorySync.EmbeddingsBelong` | src/nexapilot/memory/manager.py:315-341 | each stored embedding is the provider's answer to the text of its row |
| `MemorySync.RepetitiveLineRepeatsChunks` | src/nexapilot/memory/chunking.py:28-60 | a line of three equal full segments repeats a chunk, for every width and overlap up to one segment |
| `MemorySync.RepetitiveFileFails` | src/nexapilot/memory/store.py:44-53 | such a file cannot be stored and the sync fails |
| `Gateway.ProviderGateway.Attempt` | src/nexapilot/llm/gateway.py:365-598 | one attempt: budget, cancellation, run budget, circuit, events, retry decision; when it is retried is `GatewayRetries.AttemptsFollowRule` |
| `Gateway.ProviderGateway.RunCall` | src/nexapilot/llm/gateway.py:328-598 | the retry loop of one plan; its attempts and its verdict are those of `GatewayRetries.AttemptsFollowRule` |
| `Gateway.ProviderGateway.Stream` | src/nexapilot/llm/gateway.py:101-326 | the fallback loop over the plans; when it goes on is `GatewayRetries.PlanTurnIff` |
| `GatewayRetries.AttemptsFollowRule` | src/nexapilot/llm/gateway.py:365-598 | an attempt is followed by another of its plan if and only if it reached the provider, failed with a retryable and safe error before any output, was not cancelled in the delay, and both limits leave room; the last attempt decides the verdict, case by case |
| `GatewayRetries.PlanTurnIff` | src/nexapilot/llm/gateway.py:177-326 | the next plan is taken up if and only if the plan failed without output in a category that the next one answers, and attempts are left; otherwise the stream ends with this plan |
| `GatewayRetries.TransientFailuresAreRiddenOut` | src/nexapilot/llm/gateway.py:541-574 | if the first attempt without a transient failure ends normally within both limits, the stream succeeds with it |
| `GatewayRetries.StreamIsFaithful` | src/nexapilot/llm/gateway.py:430-500 | the caller is shown exactly the events of the attempts that reach a provider, each up to its first error, in order |
| `GatewaySafety.StreamIsSound` | src/nexapilot/llm/gateway.py:177-326 | for every provider behaviour: attempts and adapter calls within the budget, fallbacks only after an allowed failure without visible output, and which exits of the loop are reachable |
| `GatewaySafety.VisibleOutputIsNeverRestarted` | src/nexapilot/llm/gateway.py:450-462 | all visible events come from one attempt, and it is the last |
| `GatewaySafety.StreamAttemptsBounded` | src/nexapilot/llm/gateway.py:366-366 | each plan is attempted at most as often as configured |
| `GatewaySafety.SuccessIsComplete` | src/nexapilot/llm/gateway.py:464-500 | a successful stream has handed over every event of its last attempt |
| `GatewaySafety.NoAttemptsSucceedsEmpty` | src/nexapilot/llm/gateway.py:366-366 | with no attempts configured a stream succeeds empty |
| `Routing.Plan` | src/nexapilot/llm/routing.py:59-217 | the router computes plans and rejections of the allowed aliases |
| `Routing.JudgeTarget` | src/nexapilot/llm/routing.py:112-180 | the transports accepted for a target are exactly those that serve the request, one or two; a rejection names a check that fails, and no earlier check fails |
| `Routing.AcceptedServes` | src/nexapilot/llm/capabilities.py:125-203 | a transport is accepted if and only if the target's features, window and efforts, the resolver's choice and the provider's list all allow it |
| `RoutingRule.ServesIff` | src/nexapilot/llm/routing.py:112-180 | said out from the request's side: provider, tools, state, structured output, listed effort, window, and a transport that can send the effort and is configured or preferred |
| `RoutingSafety.RouteIsSound` | src/nexapilot/llm/routing.py:74-217 | at most two plans for each hop; the plans are exactly the aliases and transports that pass the router's checks, an alias is rejected exactly if it passes on no transport; one provider when state must be replayed |
| `RoutingRule.RouteFollowsRule` | src/nexapilot/llm/routing.py:74-217 | entry by entry: a known requested model first, then the route's aliases up to the allowed hops; for each alias its serving transports, the preferred one first, with effort, fallback reason, categories and budget, or the first check it fails |
| `RoutingSafety.RouteCarriesState` | src/nexapilot/llm/capabilities.py:97-121 | all plans are on a transport that carries provider state if and only if no passing alias meets the guard: effort `none` and chat completions among the transports tried and offered |
| `RoutingSafety.StateIsDropped` | src/nexapilot/llm/routing.py:126-142 | a valid configuration and a request with provider state that is planned over chat completions |
| `RoutingSafety.RoutedStreamIsSound` | src/nexapilot/llm/gateway.py:177-326 | executing a route stays within the route's attempts, fallback categories and, with provider state, the first alias's provider |
| `RoutingSafety.EmptyListStillFallsBack` | src/nexapilot/llm/gateway.py:715-721 | an empty list of fallback categories stands for the default list |
| `Checkpoints.MemoryService.Process` | src/nexapilot/memory/processor.py:26-51 | skip, gap, failure or one batch from the checkpoint on |
| `Checkpoints.MemoryService.ProcessRunCompleted` | src/nexapilot/memory/service.py:130-132 | the processors in turn, until one raises |
| `Checkpoints.MemoryService.RunOnce` | src/nexapilot/outbox/worker.py:75-121 | each claimed event is processed and acknowledged or not |
| `CheckpointSafety.CheckpointsOnlyAdvance` | src/nexapilot/memory/processor.py:46-50 | checkpoints never go back |
| `CheckpointSafety.MessagesHandledOnce` | src/nexapilot/memory/processor.py:26-51 | successful batches partition the messages up to the checkpoint: each is handled once, whatever is redelivered and whoever fails; no processor is ahead of one listed before it |
| `CheckpointSafety.AcknowledgedMeansHandled` | src/nexapilot/outbox/worker.py:88-98 | an acknowledged event has been passed by every processor, then and ever after |
| `CheckpointSafety.AcknowledgedIff` | src/nexapilot/memory/service.py:130-132 | whether a delivery is acknowledged depends on the checkpoints before it, the event and the handlers: every processor has passed the range, or its checkpoint reaches the range and its one call succeeds; then all processors end at or beyond the range, after one call for each that lagged behind |
| `ConfigSecrets.RedactSensitive` | src/nexapilot/config.py:1177-1195 | the loop over the sensitive keys redacts the document and lists the configured ones |
| `ConfigSecrets.RestoreRedactedSensitive` | src/nexapilot/config.py:1198-1233 | the loop over the sensitive keys restores the document |
| `ConfigSecrets.SecretsSurvive` | src/nexapilot/config.py:1177-1233 | restoring a redacted document against the original gives the original, for every document and every list of keys |
| `ConfigSecrets.NothingSensitiveShows` | src/nexapilot/config.py:1177-1195 | after redaction no sensitive key leads to a value |
| `ConfigSecrets.RedactionIsExact` | src/nexapilot/config.py:1177-1195 | each secret turns into the placeholder and is listed; a sensitive path without one stays as it is and is not listed |
| `ConfigSecrets.RedactionSpares` | src/nexapilot/config.py:1177-1195 | a path away from every sensitive one keeps its value |
| `ConfigSecrets.EditsAreKept` | src/nexapilot/config.py:1198-1233 | a key apart from all sensitive ones keeps its value, edited or not |
| `ConfigSecrets.PlaceholdersAreFilled` | src/nexapilot/config.py:1218-1233 | a placeholder becomes the existing secret or disappears; other values at sensitive keys are taken over |
| `ConfigSecrets.MergeIsIdempotent` | src/nexapilot/config.py:350-358 | applying a layer twice is applying it once |
| `ConfigSecrets.OverrideWins` | src/nexapilot/config.py:350-358 | every value of the upper layer that is not a mapping is found in the result |
| `ConfigSecrets.UntouchedStays` | src/nexapilot/config.py:350-358 | a key the upper layer does not touch keeps its value |

## Left out

- Identifiers, clocks and row orders chosen by the database or by set iteration are arguments of the transactions.
- Plan version numbers, titles, descriptions, assignees, result and error payloads, leases of running tasks, outbox rows and the event bus.
- The closing events of plans and goals name `active` as their former status whatever it was; replay is proved for task events only.
- Goal status after replanning, and transitions on a superseded plan: the code does not tie these to the goal.
- Cancellation and interruption of a run in the middle of a stream or a tool batch; what failed streams leave in the text buffers beyond the flushed parts.
- `SessionHistory.SessionContextIsPaired`: supposes that the session's lock keeps its runs apart, and that the provider does not repeat call identifiers, which the code cannot prevent.
- Serialisation of messages: the length of a message's parts is an arbitrary function, so the token estimate is exact only above it.
- Retrieval of memory for the context: the rendered memory text is an argument of `Build`.
- The wording of tool outcomes that the loop writes itself.
- Artifact storage of large tool outputs, hooks, permissions and tracing: the output of a call is part of the script.
- Chunk identifiers as hash values: an identifier stands for its path, lines and text, and the hash is taken to be injective.
- Time stamps of indexed files: an unchanged file keeps its old one.
- The order of rows inside the tables of the index is compared only per path and as a multiset.
- The circuit breaker's state, deadlines, jitter, usage accounting and cost: the script says whether a circuit is open and how an attempt ends.
- Every created provider call being finished exactly once: the code leaves some open and finishes some twice.
- Outbox claims, leases, retry delays and dead letters: deliveries are an arbitrary sequence of events.
- A crash between handler and checkpoint: a failing handler is taken to have no effect.
- `ConfigSecrets.RedactSensitive`: nested dictionaries are values rebuilt along the path, not copies changed in place; lists and numbers are opaque.
- Routes, command line, channels, external tools, sandboxes, adapters and logging.
