# Verified model of the OriginRouter collaboration engine and history sync

This project models the two parts of the OriginRouter CLI in which many small steps
have to add up to something a user relies on, and proves what they add up to.

**Collaboration.** A run is a durable row that works through phases and can be held
by the user, by its own budget and by the account budget, in any order. Planned runs
are task graphs that a scheduler works off under limits on concurrency and writers.
Tasks may run on another device; dispatches, pauses, cancellations and results travel
over a network that loses, repeats and reorders them, and leases with increasing
fences decide which of them still count. Gated runs go through research, planning,
review, implementation and verification with bounded loops. Everything that happens
is recorded in an append-only log that clients read in filtered pages.

**History sync.** Transcripts are split into chunks, given a version number that is
reserved before the first message, and uploaded while the process may stop at any
point. Content is compared through a canonical text, and a rotating window makes sure
that old conversations are looked at too.

## Modules

| file | what it models |
|---|---|
| `RunModel.dfy`, `HoldModel.dfy`, `RunStore.dfy` | run rows, stacked holds, usage receipts, budget edits, views |
| `UsageTotals.dfy` | what a run has used, as sums over its usage events |
| `AccountBudget.dfy` | the account-budget status protocol and its loop over the runs |
| `PlannerGraph.dfy` | the validator of planned task graphs |
| `Scheduler.dfy`, `Batches.dfy`, `Picking.dfy`, `AdaptiveRuns.dfy` | leases, batches, recovery, completions of planned runs |
| `AdaptiveTraces.dfy`, `Stranding.dfy`, `SafeSettings.dfy`, `LeaseReuse.dfy` | whole executions of planned runs: when they finish, when they cannot, settings that are safe, and a reused lease |
| `LeaseLog.dfy` | the leases issued to the agents, and which of them a result may carry |
| `Fencing.dfy`, `Redispatch.dfy` | the device that receives dispatches, and what a second dispatch meets there |
| `CoordinatorMoves.dfy`, `Coordinator.dfy` | the plan, implement, verify state machine with its holds and agent recoveries |
| `EventLog.dfy` | the event log and its pages |
| `JsonText.dfy`, `Canonical.dfy` | JSON text after RFC 8259, and canonical printing |
| `Utf8.dfy` | UTF-8 bytes of a text after RFC 3629, and back |
| `Splitting.dfy`, `HistoryChunks.dfy`, `HistorySync.dfy`, `HistoryRotation.dfy` | chunks, versions, rotation |
| `Reporter.dfy` | the reporter of runtime events |

Tables are maps and sequences held by classes, transactions are single methods, and
the network is the freedom to call any handler with any message in any state. A
method with a ghost log says what it appends to the log; lemmas over all logs then say
what holds after every history. `dafny verify dfyconfig.toml` checks the project.

## What the proofs show about the program

Where the program falls short of a promise in its comments or design, the model keeps
the program's branches, one lemma says exactly when the promise holds, and another one
gives a history in which it does not.

- **A hold can be lost.** A task that is retried, or a run blocked by the failure of a
  dispatch that was under way when the user paused, leaves a row that no history of
  holds explains (`RetryNeedsNoHold`, `UncheckedTransitionNeedsNoHold`; for any row,
  `WorkAgreesExactlyWhen`). Histories: `RetryUndoesPause`, `RecoveryBlockUndoesPause`.
- **A planned run can get stuck.** The scheduler looks at busy participants once per
  round, so a round with two slots can give one participant two tasks. The first is then
  active with nobody working on it. The run can still be finished by dispatches and
  results exactly when no two free tasks of one participant were within the free slots
  (`RoundCanFinishExactlyWhen`, `CanFinishExactlyWhenServed`); a stranded task accepts no
  result any more (`StrandedForGood`). An accepted plan of two independent tasks is enough
  (`AcceptedPlanGetsStuck`). A recovery, that is, a restart or a pause and a resume, makes
  sure of one more accepted result; with one before every result each run gets to its
  end (`EveryRunCanFinish`). A round with one slot, or with pending tasks of different
  participants, strands nobody (`NoTwoForOne`), and a limit of one keeps a whole run
  safe (`OneSlotFinishesAfterExactly`).
- **A paused task can stay blocked.** The comment that recovery uses a newer fence is true
  of recovery dispatches only. A task that a release had no slot for is later dispatched
  at the fence it was paused at, and the other device blocks it
  (`RedispatchPassesExactlyWhen`). History: `InterruptedLeaseIsUsedAgain`,
  `ResetTaskIsBlocked`.
- **A pause can be forgotten.** One that overtakes its dispatch is looked up by an empty
  session id. If another assignment has no session yet, the pause is dropped and the
  dispatch passes (`OvertakingPauseIsNotedExactlyWhen`). History:
  `ForgottenPauseLetsDispatchPass`.
- **A paused prompt can be delivered.** The check after a launch reads the assignment row,
  not the prompt it is about to send (`StoppedPromptDeliveredExactlyWhen`). A run of the
  handlers: `OvertakenLaunch`.
- **The state a run ended in can change.** `blockForAgentRecovery` is called after an
  await with the run as it was before, and moves the run to blocked whatever it is now.
  The local API hands any message to the coordinator (`src/local/localApi.js:1179`), which
  applies blocked and failed messages in every state; the guard of the runtime's own
  `fail` (`Coordinator.Fail`) is not on that path. So a run leaves its end by such a block
  or by a blocked message, a run that did not fail becomes failed by a failed message, and
  nothing else changes a final state (`EndIsLeftExactlyBy`, `EndedRunsAgainExactlyWhen`,
  `EndIsKeptExactlyWhen`). Histories: a completed run is blocked or fails by a message
  (`CompletedRunIsBlocked`, `CompletedRunFails`), and a cancelled run is back at work after
  its agent is rebuilt (`CancelledRunRunsAgain`). Each block that comes late can cost turns
  beyond the gates (`RunIsBounded`, `LateBlockExceedsGates`).
- **An event id is looked up across all runs.** Every possible answer is the caller's own
  event exactly when no other run has used the id (`AnswersAreOwnExactlyWhen`). The
  runtime builds ids from session names and local numbers
  (`src/collaboration/collaborationRuntime.js:1577`), so a collision needs a caller that
  reuses one; `ForeignEventAnswers` is the table it then meets.
- **An uncounted block can be overtaken.** With the status protocol the flag clears exactly
  for the fresh reply to an unanswered request (`ClearsExactlyWhen`); a block from a server
  without the protocol is not counted, and an earlier request's reply clears it
  (`LegacyBlockCanBeOvertaken`).

Stops converge exactly when those at the highest fence carry one attempt
(`DeliveriesConvergeExactlyWhen`); others do not commute (`MergeCommutes`,
`SameFenceDependsOnOrder`). This is not a shortfall of the program: every sender stamps
both numbers from one lease, and such stops converge (`CancellationsConverge`).

## Model

| member | source | states |
|---|---|---|
| `HoldModel.HomeIsLastWorkingState` | src/collaboration/collaborationStore.js:2528-2552 | after any history of pauses, resumes, usage, budget edits, account changes and transitions, the state to come back to is the last working state the run was seen in |
| `HoldModel.HoldsLoseNothing` | src/collaboration/collaborationStore.js:2520-2602 | any sequence of holds and releases, in any order, that ends in work ends in the state it began in |
| `HoldModel.ReleaseReturnsHome` | src/collaboration/collaborationStore.js:2562-2590 | every single step from a held state to a working one leads to that home state |
| `HoldModel.AgreementReads` | src/collaboration/collaborationStore.js:2434-2514 | a working row is never account-blocked or at a limit and has no paused task; a held row saves a working state and has no active or pending task; on every row, finished ones included, the unknown-state sentinel is not stored |
| `HoldModel.CanResumeIsExact` | src/collaboration/collaborationStoreInspection.js:55-58 | on a row the store can produce, the advertised capability holds exactly when `resumeRun` succeeds, and exactly when resuming returns the run home |
| `HoldModel.AttentionIsListed` | src/collaboration/collaborationStore.js:1068-1098 | attention, active and recent put every row in exactly one list; an unfinished run shows a budget item exactly while the account blocks it or a limit is reached, and needs attention exactly for what it shows, a stored item, or a state that waits for somebody; a finished run only for a stored item |
| `HoldModel.RetryNeedsNoHold` | src/collaboration/collaborationStore.js:2604-2636 | retrying a task leaves a row that some history of holds explains if and only if nothing held the run before |
| `HoldModel.UncheckedTransitionNeedsNoHold` | src/collaboration/collaborationStore.js:3213-3244 | the same for an unguarded transition to a working state |
| `HoldModel.WorkAgreesExactlyWhen` | src/collaboration/collaborationStore.js:3213-3244 | any row put to work, whatever it was before, is explained by some history of holds if and only if it has no saved state, no account block, no limit reached and no paused task |
| `RunStore.RetryUndoesPause` | src/collaboration/collaborationStore.js:2604-2636 | a concrete history: started, paused, retried; the run works and no history of holds explains its row |
| `RunStore.RecoveryBlockUndoesPause` | src/collaboration/collaborationRuntime.js:1409-1416 | a concrete history: started, paused while a dispatch is under way, blocked by its failure; the pause can no longer be lifted |
| `RunStore.ResumeStateIsLastWorkingState` | src/collaboration/collaborationStore.js:2528-2552 | the stored `resume_state` of any held run is the working state it was last seen in |
| `RunStore.PausedRow` | src/collaboration/collaborationStore.js:2528-2551 | the pause row agrees with the flag model; the saved state survives a pause on top of a budget hold; tasks stop |
| `RunStore.ResumedRow` | src/collaboration/collaborationStore.js:2562-2590 | accepted exactly when not blocked, under the limits and with a usable saved state, otherwise the first failing check is the error; the row goes to the saved state and tasks restart |
| `RunStore.UsageRow` | src/collaboration/collaborationStore.js:2223-2238 | usage moves a working run into the budget hold exactly when a limit is reached and never touches a pause |
| `RunStore.BudgetRow` | src/collaboration/collaborationStore.js:2317-2355 | a new budget holds or releases as the flag model says; a release restores the saved state |
| `RunStore.AccountRow` | src/collaboration/collaborationStore.js:2443-2499 | an account block or clear agrees with the flag model; `restored` is reported exactly when the run went back to work |
| `RunStore.CheckedMoveAgrees` | src/collaboration/collaborationStore.js:3213-3255 | a transition between working states, or into a terminal state, is the same step of the flag model |
| `RunStore.CollaborationStore.CreateRun` | src/collaboration/collaborationStore.js:324-384 | a new row starts its history and leaves every other row alone |
| `RunStore.CollaborationStore.PauseRun` | src/collaboration/collaborationStore.js:2520-2560 | refused exactly for unknown or finished runs; otherwise one logged pause and no other row changed |
| `RunStore.CollaborationStore.ResumeRun` | src/collaboration/collaborationStore.js:2562-2602 | succeeds exactly when `ResumeSucceeds`, and then returns to the saved working state |
| `RunStore.CollaborationStore.RecordUsage` | src/collaboration/collaborationStore.js:2161-2259 | a repeated event id changes nothing; otherwise one receipt says the sampled tokens and the configured amount in the run's currency, and the row's totals, currency and unpriced count are the sums over all its usage events; with a limit reached it does not work |
| `UsageTotals.UsageIsTotals` | src/collaboration/collaborationStore.js:2171-2194 | after any history the tokens are the sum of those sampled, the amount the sum of the configured whole amounts in the run's currency, the unpriced count the number of the other events, and the currency the first one named |
| `UsageTotals.WorksExactlyWhen` | src/collaboration/collaborationStore.js:2196-2238 | after any history a run works if and only if it has not ended, nothing holds it, and neither sum has reached a limit that is not zero |
| `RunStore.RowIsAccounted` | src/collaboration/collaborationStore.js:2171-2238 | every stored row shows those sums and the last budget given, and does not work when a limit is reached |
| `RunStore.CollaborationStore.UpdateBudget` | src/collaboration/collaborationStore.js:2261-2367 | accepted if and only if every field is in range, the currency does not conflict with the one in use and the expected revision is current; a conflict exactly when the expected revision is another; the new budget field by field, and totals and hold over the whole history |
| `RunStore.EditMeans` | src/collaboration/collaborationStore.js:2261-2315 | when an edit is accepted, which error is a conflict of what, and what absent, null and given fields do; only a guarded edit lifts the token limit by null |
| `RunStore.CollaborationStore.SetAccountBudgetBlocked` | src/collaboration/collaborationStore.js:2434-2514 | sets the flag of any unfinished run, reports exactly whether it changed and whether work resumed |
| `RunStore.CollaborationStore.Transition` | src/collaboration/collaborationStore.js:3213-3255 | always writes the row: its state, the state and phase of each task where they are given, and nothing else; a move from work to work, or of an unfinished run to its end, keeps its history; otherwise a row put to work, finished rows included, is explained by some history if and only if nothing holds it and no task stays paused |
| `RunStore.CollaborationStore.RetryAdaptiveTask` | src/collaboration/collaborationStore.js:2604-2636 | accepted if and only if the planned run has not ended and the task failed, was cancelled, blocked or paused, else the first failing check is the error; the run executes, that task waits again and nothing else changes; the store stays valid if and only if the run was working |
| `RunStore.CollaborationStore.ListAccountBudgetRunIds` | src/collaboration/collaborationStore.js:1197-1203 | exactly the unfinished runs, each once |
| `RunStore.UsageStepConserves` | src/collaboration/collaborationStore.js:2171-2194 | with one more receipt, tokens, amount and unpriced count are again the sums over the receipts; a currency once set is never replaced and every non-zero amount is in it |
| `RunStore.NamingCurrencyKeepsUnpriced` | src/collaboration/collaborationStore.js:2181-2194 | naming the first currency leaves all earlier receipts unpriced |
| `AccountBudget.ClearNeedsFreshReply` | src/collaboration/collaborationRuntime.js:1995-2014 | after any history, a protocol-1 status takes the flag from blocked to clear only as the reply to the latest request with no block handled since it left |
| `AccountBudget.ClearsExactlyWhen` | src/collaboration/collaborationRuntime.js:1995-2018 | after any history, a protocol-1 status takes the flag from blocked to clear if and only if it is the reply to the latest request, no block was handled since that left, and no such reply came before |
| `AccountBudget.DecisionMeans` | src/collaboration/collaborationRuntime.js:1995-2014 | the decision over any log: applied exactly if it is a block, comes from an older peer or is the awaited fresh reply; another request exactly for a clear that was pushed or overtaken |
| `AccountBudget.RequestBringsClear` | src/collaboration/collaborationRuntime.js:1999-2014 | progress: a request that left stays outstanding through any statuses that neither answer it nor count as a block, and the first clear that answers it clears the flag |
| `AccountBudget.ReplyIsConsumed` | src/collaboration/collaborationRuntime.js:2008-2014 | a second copy of the reply is dropped |
| `AccountBudget.LegacyBlockCanBeOvertaken` | src/collaboration/collaborationRuntime.js:1996-2018 | a block from a peer without the protocol is not counted, so a reply requested before it clears it: a concrete run |
| `AccountBudget.StatusExplained` | src/collaboration/collaborationRuntime.js:1988-2018 | after every status the epoch counts the blocks handled, and the saved request is the latest one sent, present exactly while it is unanswered |
| `AccountBudget.FlagStopsWork` | src/collaboration/collaborationStore.js:2443-2499 | on rows that agree with their histories, a flag set on every unfinished run means all of them are held with no active or pending task |
| `AccountBudget.AccountRuntime.RefreshAccountBudgetStatus` | src/collaboration/collaborationRuntime.js:3062-3069 | records the new request at the current epoch |
| `AccountBudget.AccountRuntime.AdmitStatus` | src/collaboration/collaborationRuntime.js:1995-2021 | over the log: the status is applied if and only if it may be believed, a request leaves if and only if the status calls for one and there is a relay, and the flag afterwards |
| `AccountBudget.AccountRuntime.HandleStatus` | src/collaboration/collaborationRuntime.js:1988-2051 | over the log: a protocol-1 clear makes a request leave exactly when it was pushed while something is blocked, or answers the latest unanswered request after a counted block; which messages are applied; an applied one reaches every unfinished run, any other changes no run |
| `AccountBudget.AccountRuntime.ApplyToRuns` | src/collaboration/collaborationRuntime.js:2022-2051 | after the loop every unfinished run carries the flag, and finished runs are untouched |
| `PlannerGraph.GraphSearch.Visit` | src/collaboration/adaptivePlan.js:194-201 | a visit that fails has found a cycle; one that succeeds extends an order in which every task follows its dependencies; it terminates |
| `PlannerGraph.AcceptsGraph` | src/collaboration/adaptivePlan.js:191-202 | accepts if and only if the graph has no cycle, and then yields a complete topological order |
| `PlannerGraph.PathDescends` | src/collaboration/adaptivePlan.js:194-202 | along any path the position in a topological order falls by at least the length of the path |
| `PlannerGraph.OrderedGraphHasNoCycle` | src/collaboration/adaptivePlan.js:202 | a graph with a complete topological order has no cycle |
| `PlannerGraph.NormalizeItems` | src/collaboration/adaptivePlan.js:161-184 | accepts exactly the lists whose items are all valid, and otherwise names the first wrong item and what is wrong with it |
| `PlannerGraph.CheckDependencies` | src/collaboration/adaptivePlan.js:185-190 | accepts exactly when every dependency is known and not the task itself, and otherwise blames a real one |
| `PlannerGraph.NormalizeAdaptivePlan` | src/collaboration/adaptivePlan.js:156-209 | over the proposed list: accepted if and only if there are 1 to 24 well-formed items, all dependencies are other listed tasks and none depend on each other in a circle; the plan then says what was proposed; the first wrong item, a really wrong dependency or the circle is named otherwise |
| `PlannerGraph.CyclicMeans` | src/collaboration/adaptivePlan.js:191-202 | the graph of the normalized plan has a cycle if and only if proposed tasks depend on each other in a circle |
| `Scheduler.RecoveryDispatchIsFresh` | src/collaboration/collaborationRuntime.js:1356-1362 | a recovery dispatch always gets a fence one above the interrupted one |
| `Scheduler.FirstUnfinished` | src/collaboration/collaborationStore.js:1586-1591 | among unfinished ordered tasks one has all its dependencies completed |
| `Scheduler.SomethingRuns` | src/collaboration/collaborationStore.js:1586-1600 | with nothing active, work left and every writer placed, no legal batch is empty |
| `Scheduler.StartKeepsRun` | src/collaboration/collaborationStore.js:1574-1600 | starting a task of a legal batch keeps dependencies respected, writers apart, leases in lockstep and agents on their own tasks |
| `Batches.SelectBatch` | src/collaboration/collaborationStore.js:1574-1600 | a batch is legal, fits the free slots, and passes over an eligible task only for lack of slots or because its workspace is missing or written by an active or earlier chosen task |
| `Batches.BatchIsFirstFree` | src/collaboration/collaborationStore.js:1574-1600 | a list fills the slots in that sense if and only if it is the first free tasks in row order, so the tasks, agents and slots determine it |
| `Batches.OneTaskEachExactlyWhen` | src/collaboration/collaborationStore.js:1578-1591 | a batch gives every participant at most one task if and only if no two free tasks of one participant are within the first free slots |
| `Batches.NoTwoForOne` | src/collaboration/collaborationStore.js:1578-1591 | that is so whenever there is at most one slot, or the pending tasks have different participants |
| `Picking.FirstFreeMeans` | src/collaboration/collaborationStore.js:1574-1600 | the first free tasks, said of the columns of tasks and agents alone: which tasks may run, in what order, and how many the limit leaves room for |
| `Picking.WritersAreApart` | src/collaboration/collaborationStore.js:1582-1600 | in every reachable state active writing tasks are in different workspaces, each in one |
| `AdaptiveRuns.StartBatch` | src/collaboration/collaborationRuntime.js:1285-1295 | starting a batch keeps every invariant, adds exactly its size to the active count, and hands each task to its agent |
| `AdaptiveRuns.RoundRespectsLimit` | src/collaboration/collaborationStore.js:1580-1581 | a round never raises the active count above the maximum of its old value and the limit |
| `AdaptiveRuns.RoundLeavesSomethingActive` | src/collaboration/collaborationRuntime.js:1269-1296 | while tasks are left and every writer has a workspace, something is active after a round |
| `AdaptiveRuns.RoundServes` | src/collaboration/collaborationRuntime.js:1285-1295 | after a round every active task is its agent's current task if and only if, before it, no two free tasks of one participant were within the free slots |
| `AdaptiveRuns.Advance` | src/collaboration/collaborationRuntime.js:1269-1297 | one round runs a batch or finishes the run, and finishes it exactly when all tasks are completed |
| `AdaptiveRuns.AcceptedPlanIsOrdered` | src/collaboration/adaptivePlan.js:156-209 | an accepted plan can be carried out in some order |
| `AdaptiveRuns.AdaptiveRun.RunnableAdaptiveTasks` | src/collaboration/collaborationStore.js:1574-1600 | nothing outside the executing state, else the first tasks in row order that are pending, have their dependencies completed, an idle participant and, if they write, a workspace that no active and no earlier such task writes, as many as the limit leaves room for |
| `AdaptiveRuns.AdaptiveRun.DispatchAdaptive` | src/collaboration/collaborationRuntime.js:1227-1297 | an executing run makes exactly one round: it starts those tasks, issues one lease for each in their order, and is finished when all tasks are completed; active writers are in different workspaces; any other run is left alone |
| `AdaptiveRuns.AdaptiveRun.RecoverDispatch` | src/collaboration/collaborationRuntime.js:1227-1228 | interrupted tasks are reset and dispatched again with new leases; active writers stay apart |
| `AdaptiveRuns.AdaptiveRun.AddAdaptiveTask` | src/collaboration/collaborationStore.js:1523-1572 | refused for the first failing check, parent and mode included; an existing key adds nothing; otherwise one pending task that says what was asked |
| `AdaptiveRuns.AdaptiveRun.HoldRun` | src/collaboration/collaborationStore.js:2540-2550 | a hold stops every unfinished task of an executing run |
| `AdaptiveRuns.AdaptiveRun.ReleaseRun` | src/collaboration/collaborationStore.js:2575-2590 | a release sends the stopped tasks back and dispatches them again |
| `AdaptiveRuns.AdaptiveRun.ReceiveResult` | src/collaboration/collaborationRuntime.js:2129-2152 | over the log of leases: a result counts if and only if it names the agent's task and carries either no lease numbers or exactly those of the lease last issued to that agent; so no frame stamped before a recovery that dispatched to the agent again counts, nor one with a single number, and the task completes once |
| `LeaseLog.RoundKeepsLeases` | src/collaboration/collaborationStore.js:1616-1644 | the fences of the leases issued to an agent never fall, rise with every recovery, and the agent holds the last of them; a round keeps that, whatever it hands out |
| `LeaseLog.RenewedLeaseIsStale` | src/collaboration/collaborationRuntime.js:2612-2624 | a lease from before a recovery that handed its agent another task has a lower fence than the agent shows |
| `AdaptiveRuns.LeaseDecides` | src/collaboration/collaborationRuntime.js:2612-2624 | for an agent at work on the task, the check of the two numbers passes if and only if the frame has neither or carries its latest lease |
| `AdaptiveRuns.LatestIsHighest` | src/collaboration/collaborationRuntime.js:2612-2624 | a frame that carries the latest lease has the highest fence issued to the agent, and is not from before any recovery that dispatched to it |
| `AdaptiveRuns.AdaptiveRun.CompleteCurrent` | src/collaboration/collaborationRuntime.js:2876-2885 | the agent's task completes and was not completed before |
| `AdaptiveTraces.StepCounts` | src/collaboration/collaborationRuntime.js:1227-1297 | every dispatch, result, addition, recovery, hold and release keeps a run sound, and only a result and an addition change how many tasks are left, by one each |
| `AdaptiveTraces.FinishedExactlyWhenAllResultsCame` | src/collaboration/collaborationRuntime.js:1269-1297 | after any series of these events a run is finished if and only if as many results counted as it was given tasks |
| `AdaptiveTraces.ServedExactlyWhenNotStranded` | src/collaboration/collaborationRuntime.js:1285-1295 | after the round of a dispatch, result, recovery or release all active tasks are being worked on if and only if that round gave nobody two tasks; a recovery and a release repair what was wrong before |
| `AdaptiveTraces.LiveStays` | src/collaboration/collaborationRuntime.js:1227-1297 | with every writer placed, an event whose round gives nobody two tasks leaves an executing run with some task active and all active tasks worked on |
| `AdaptiveTraces.PlanFinishesAfterExactly` | src/collaboration/collaborationRuntime.js:1227-1297 | from the first dispatch of an accepted plan, through any events of which none gives a participant two tasks: while the run executes some result frame counts, and it is finished if and only if as many results counted as it was given tasks |
| `SafeSettings.OneSlotFinishesAfterExactly` | src/collaboration/collaborationRuntime.js:1227-1297 | the same conclusion from the settings alone: every limit is one, and each writing task of the plan, or added on the way, belongs to a participant with a workspace |
| `AdaptiveTraces.EveryRunCanFinish` | src/collaboration/collaborationRuntime.js:1227-1228 | any executing run whose writers have workspaces, stranded tasks or not, finishes after exactly as many results as tasks are left when a recovery precedes each |
| `Stranding.StrandedForGood` | src/collaboration/collaborationRuntime.js:2129-2138 | once an active task is not its agent's current one, no series of dispatches, results and additions finishes the run, and no result for that task is accepted |
| `Stranding.CanFinishExactlyWhenServed` | src/collaboration/collaborationRuntime.js:1227-1297 | dispatches and results, under limits the user may edit, can bring an executing run to its end if and only if every active task is its agent's current one |
| `Stranding.RoundCanFinishExactlyWhen` | src/collaboration/collaborationRuntime.js:1269-1297 | after a round that is so if and only if no two free tasks of one participant were within its free slots |
| `Stranding.AcceptedPlanGetsStuck` | src/collaboration/collaborationStore.js:1574-1600 | a concrete run: two independent read-only tasks of one participant and two slots; after the first dispatch the run cannot finish that way |
| `LeaseReuse.InterruptedLeaseIsUsedAgain` | src/collaboration/collaborationStore.js:1616-1644 | a concrete run: dispatch, hold, release with the limit lowered to one, first result; the second task is active again under the lease it was interrupted at |
| `Fencing.MergeCommutes` | src/collaboration/collaborationStore.js:2042-2058 | two stops of one assignment merge to the same record in either order if and only if their fences differ or their attempts agree |
| `Fencing.SameFenceDependsOnOrder` | src/collaboration/collaborationStore.js:2042-2058 | two stops at one fence with different attempts: whether a dispatch between them is blocked depends on their order; leases never stamp such a pair |
| `Fencing.RecordIsLatestHighest` | src/collaboration/collaborationStore.js:2042-2058 | after any series of stops of one assignment the record is the latest one among those at the highest fence |
| `Fencing.DeliveriesConvergeExactlyWhen` | src/collaboration/collaborationStore.js:2042-2058 | every delivery of the same stops, in any order and with any repetition, leaves the same record if and only if the stops at the highest fence carry one attempt |
| `Fencing.CancellationsConverge` | src/collaboration/collaborationStore.js:2018-2074 | any two deliveries of the same lease-stamped stops leave the same record |
| `Fencing.TakingExplained` | src/collaboration/collaborationStore.js:1665-1758 | an accepted dispatch keeps the table the latest accepted one; once strict an assignment stays strict and its fences strictly increase |
| `Fencing.NotingExplained` | src/collaboration/collaborationStore.js:2042-2074 | a noted stop keeps the table at the highest fence ever noted |
| `Fencing.GateIsExact` | src/collaboration/collaborationRuntime.js:2366-2394 | after any history of lost, repeated and reordered frames, a lease-stamped dispatch passes if and only if its fence is above every noted stop and every strictly accepted fence of its assignment |
| `Fencing.StopBlocksLowerFences` | src/collaboration/collaborationStore.js:2079-2093 | on any history, a dispatch strictly below a noted stop of its run and role is blocked |
| `Fencing.DelayedStopLeavesOtherFences` | src/collaboration/collaborationRuntime.js:2284-2296 | a stop that names a fence neither changes a row at another fence nor interrupts a session only such rows use |
| `Fencing.OvertakingPauseIsNotedExactlyWhen` | src/collaboration/collaborationRuntime.js:2275-2283 | a pause that arrives before its dispatch is remembered if and only if no assignment is still without a session, or the one found has the same owner |
| `Fencing.ForgottenPauseLetsDispatchPass` | src/collaboration/collaborationRuntime.js:2275-2283 | a concrete run in which such a pause is forgotten and its dispatch then passes |
| `Fencing.StoppedPromptDeliveredExactlyWhen` | src/collaboration/collaborationRuntime.js:2431-2451 | a stopped prompt is delivered after a launch if and only if a newer dispatch replaced the row meanwhile and the stop lies between the two fences |
| `Fencing.OvertakenLaunch` | src/collaboration/collaborationRuntime.js:2366-2464 | a concrete run of the handlers: dispatch, second dispatch, pause of the first, then the first agent is up and receives the paused prompt |
| `Fencing.RemoteDevice.RecordRemoteCancellation` | src/collaboration/collaborationStore.js:2018-2074 | refused exactly for missing or conflicting identity, otherwise merged and logged |
| `Fencing.RemoteDevice.BeginDispatch` | src/collaboration/collaborationRuntime.js:2366-2426 | a dispatch is accepted if and only if it arrives whole and for this device, no noted stop covers it, it is no repetition, keeps its row's owner and, once strict, has a higher fence; when it is blocked, a duplicate, stale or foreign; only an accepted one changes anything: its row column by column, the history, and either the prompt or a launch |
| `Fencing.GateMeans` | src/collaboration/collaborationRuntime.js:2366-2426 | that over all tables and frames |
| `Fencing.RemoteDevice.FinishDispatch` | src/collaboration/collaborationRuntime.js:2445-2464 | the prompt is sent and the row runs unless a noted stop covers the row as it was read after the launch, else the row is cancelled; a stopped prompt is sent only if another dispatch overtook the launch |
| `Fencing.RemoteDevice.ReceivePause` | src/collaboration/collaborationRuntime.js:2273-2297 | column by column: a pause from the owner of a row stops exactly that row and interrupts its session if and only if each number it names is the row's; a row without a session is paused without an interrupt; otherwise nothing stops; what is noted |
| `Fencing.RemoteDevice.ReceiveCancel` | src/collaboration/collaborationRuntime.js:2324-2344 | the same for a cancel, which is always noted first and must name the row's target device |
| `Fencing.PauseOfLatestLeaseStops` | src/collaboration/collaborationRuntime.js:2273-2297 | after any history, a pause that carries the lease last taken for an assignment, from its owner, leaves that row paused and cuts its session |
| `Fencing.CancelOfLatestLeaseStops` | src/collaboration/collaborationRuntime.js:2324-2344 | the same for a cancel |
| `Redispatch.StopBlocksItsOwnLease` | src/collaboration/collaborationStore.js:2079-2093 | a noted stop blocks the dispatch it was issued for, whatever else was noted |
| `Redispatch.RedispatchPassesExactlyWhen` | src/collaboration/collaborationRuntime.js:1340-1362 | after its lease was paused on the other device, a task dispatched again passes the gate if and only if it is a recovery dispatch or the paused lease was not the first dispatch of the same task |
| `Redispatch.ResetTaskIsBlocked` | src/collaboration/collaborationRuntime.js:1340-1362 | it happens: in the run of LeaseReuse the task is active on the coordinator while a device that noted the pause blocks its dispatch |
| `JsonText.NumberStops` | src/agent/agentHistorySync.js:22-30 | a number is read back exactly, whatever follows it in a document (RFC 8259, section 6) |
| `JsonText.StringComesBack` | src/agent/agentHistorySync.js:22-30 | reading a quoted string gives the string, lone surrogates and control characters included (section 7) |
| `JsonText.DocumentComesBack` | src/agent/agentHistorySync.js:22-30 | parsing a printed document gives it back and leaves what follows (sections 2 to 7) |
| `JsonText.PrintIsInjective` | src/agent/agentHistorySync.js:22-30 | two documents print alike if and only if they are equal |
| `Canonical.CanonicalIsPrinted` | src/agent/agentHistorySync.js:22-30 | the canonical text is the printed normal document |
| `Canonical.SameNormal` | src/agent/agentHistorySync.js:22-30 | normal documents are equal if and only if the values are the same up to key order, dropped undefined members and null for undefined slots |
| `Canonical.CanonicalDecidesSameness` | src/agent/agentHistorySync.js:22-30 | two values have the same canonical text if and only if they are the same in that sense, and the parser recovers the document from the text |
| `HistoryChunks.LengthAdds` | src/agent/agentHistorySync.js:99 | UTF-8 lengths add up over concatenation where no surrogate pair is cut |
| `HistoryChunks.LengthIsBytes` | src/agent/agentHistorySync.js:94-109 | the length counted is the number of bytes of the UTF-8 encoding, on every text |
| `Utf8.TextComesBack` | src/agent/agentHistorySync.js:99 | decoding the bytes of any text gives it back with every lone surrogate replaced by U+FFFD (RFC 3629, section 3) |
| `Utf8.PairedTextComesBack` | src/agent/agentHistorySync.js:99 | a text without lone surrogates comes back unchanged |
| `HistoryChunks.SplitEntries` | src/agent/agentHistorySync.js:94-109 | chunks concatenate to the input; each has at most 100 entries and 225,280 UTF-8 bytes unless it is one entry, none is empty, none could take one more, and no split within the limits is shorter |
| `Splitting.SplitBy` | src/agent/agentHistorySync.js:94-109 | the loop, for any limit that passes to parts of a chunk |
| `Splitting.StaysAhead` | src/agent/agentHistorySync.js:94-109 | a maximal split needs no more chunks than any other, even one with more left to cover |
| `Splitting.MaximalSplitIsUnique` | src/agent/agentHistorySync.js:94-109 | there is only one maximal split within the limits |
| `HistorySync.OneContentPerVersion` | src/agent/agentHistorySync.js:216-297 | any two messages ever sent under one conversation and version carry the same chunks |
| `HistorySync.ReservationResumesExactly` | src/agent/agentHistorySync.js:285-288 | an interrupted version is taken up again if and only if the chunks are the same as those it was reserved for |
| `HistorySync.PublicationIsUpToDateFor` | src/agent/agentHistorySync.js:234-236 | a published version is taken as up to date if and only if the chunks are the same |
| `HistorySync.FingerprintMeans` | src/agent/agentHistorySync.js:216-220 | two fingerprints are equal if and only if the chunks agree in number, start, end and entries, whatever else they say |
| `HistorySync.PublishingFits` | src/agent/agentHistorySync.js:348-357 | published versions strictly increase |
| `HistorySync.HistorySync.UploadVersion` | src/agent/agentHistorySync.js:285-358 | for any answers and a stop at any point: the announcement, the chunks in order and the completion leave up to the first bad or missing answer, under the reserved version or a new one above all used; how the upload ends; the publication, or the reservation beside the earlier one, is saved |
| `HistorySync.UploadMeans` | src/agent/agentHistorySync.js:285-358 | the same over all answers, as relations between answers, end, messages and saved state |
| `HistorySync.HistorySync.SendAll` | src/agent/agentHistorySync.js:300-332 | exactly the messages up to the first bad or missing answer are sent |
| `HistorySync.HistorySync.CheckIndex` | src/agent/agentHistorySync.js:233-283 | when thirty minutes have passed since the last look, or the publication, or the clock went back: one question; after a usable answer its time is saved and exactly what the index lacks is sent, in order, up to the first bad or missing answer; otherwise nothing |
| `HistorySync.LookMeans` | src/agent/agentHistorySync.js:233-283 | the same over all answers, with what the index lacks given by its members and their order |
| `HistorySync.HistorySync.SyncConversation` | src/agent/agentHistorySync.js:198-360 | the whole step for one conversation: an empty transcript changes nothing, an unchanged one is only looked at, and any other is uploaded |
| `HistoryRotation.NextRowFollows` | src/agent/agentHistorySync.js:147-148 | with the cursor on a row the next scan starts at the row after it, or at the first |
| `HistoryRotation.WindowIsCyclic` | src/agent/agentHistorySync.js:148-153 | one scan takes rows in cyclic order from the cursor, and no row twice |
| `HistoryRotation.VisitsAreCyclic` | src/agent/agentHistorySync.js:195-197 | over scans of any lengths the rows are dealt with in cyclic order, none skipped and none repeated early |
| `HistoryRotation.RotationIsFair` | src/agent/agentHistorySync.js:133-155 | n / 100 rounded up full scans deal with every older row, from any cursor |
| `HistoryRotation.FewerScansMissSome` | src/agent/agentHistorySync.js:133-155 | fewer scans always miss one: the bound is exact |
| `HistoryRotation.ReadCatalog` | src/agent/agentHistorySync.js:134-143 | reading page by page returns the whole catalogue |
| `HistoryRotation.HistoryScan.SelectConversations` | src/agent/agentHistorySync.js:133-155 | the recent rows and the window at the cursor |
| `HistoryRotation.HistoryScan.Scan` | src/agent/agentHistorySync.js:194-204 | each row dealt with moves the saved cursor; all rows so far are those of a series of scans |
| `Coordinator.RunIsBounded` | src/collaboration/planImplementVerifyCoordinator.js:51-73 | on every legal run, held, released, blocked for recovery and rebuilt in any order, revisions and rework stay within their gates and agent turns within 1 + 2(P+1) + 2(R+1), as many again for each dispatch that failed after the run had moved on |
| `Coordinator.LateBlockExceedsGates` | src/collaboration/collaborationRuntime.js:853-873 | the exception is real: for any gates some run with exactly one such late failure takes a turn more than they allow |
| `CoordinatorMoves.MoveLowersRank` | src/collaboration/planImplementVerifyCoordinator.js:51-83 | every move keeps or lowers the number of turns left here, at the saved state and at pending recovery items; an agent turn lowers it, and only a late block raises it |
| `Coordinator.BoundIsReached` | src/collaboration/planImplementVerifyCoordinator.js:51-83 | for any gates some run takes exactly that many turns and completes |
| `Coordinator.CompletionIsGated` | src/collaboration/planImplementVerifyCoordinator.js:74-75 | a run is completed only by a passed verification, after a delivered implementation, after an approved plan |
| `CoordinatorMoves.EndIsLeftExactlyBy` | src/collaboration/planImplementVerifyCoordinator.js:76-79 | from any position that has ended, a move leads to another state if and only if it is a blocked message, an agent-recovery block, or a failed message to a run that did not fail; to an unfinished one if and only if it is one of the first two |
| `Coordinator.EndedRunsAgainExactlyWhen` | src/collaboration/planImplementVerifyCoordinator.js:76-94 | on every legal run, one that has ended is unfinished again later if and only if a blocked message or a recovery block comes while it has ended |
| `Coordinator.EndIsKeptExactlyWhen` | src/collaboration/planImplementVerifyCoordinator.js:76-94 | on every legal run, one that has ended keeps that very state if and only if none of those three moves comes |
| `Coordinator.CompletedRunIsBlocked` | src/collaboration/planImplementVerifyCoordinator.js:76-77 | a concrete run for any gates: verified, completed, then blocked by a message, as the local API (`src/local/localApi.js:1179`) delivers it |
| `Coordinator.CompletedRunFails` | src/collaboration/planImplementVerifyCoordinator.js:78-79 | the same with a failed message: a completed run becomes a failed one |
| `Coordinator.CancelledRunRunsAgain` | src/collaboration/collaborationRuntime.js:853-873 | a concrete run: cancelled while a dispatch is under way, blocked by its failure, rebuilt, and at work again |
| `Coordinator.Coordinator.MoveTo` | src/collaboration/planImplementVerifyCoordinator.js:24-33 | a move outside the table is refused and changes nothing |
| `Coordinator.Coordinator.Receive` | src/collaboration/planImplementVerifyCoordinator.js:50-83 | a message moves the run at most once: for each of the ten kinds from where and to where, which loop it counts, and when it is refused and changes nothing |
| `Coordinator.MessageMeans` | src/collaboration/planImplementVerifyCoordinator.js:50-83 | that over every position and all gates: a used-up gate fails the run from any state at work |
| `Coordinator.Coordinator.Cancel` | src/collaboration/planImplementVerifyCoordinator.js:85-94 | ends any unfinished run |
| `Coordinator.Coordinator.Fail` | src/collaboration/collaborationRuntime.js:3091-3105 | a failure of the runtime ends any unfinished run and never touches one that has ended |
| `Coordinator.Coordinator.BlockForAgentRecovery` | src/collaboration/collaborationRuntime.js:853-873 | blocks the run whatever its state, and adds the state the failed dispatch saw to the pending items unless the item is known |
| `Coordinator.Coordinator.Rebuild` | src/collaboration/collaborationRuntime.js:990-1055 | refused for an item that is not pending and for an ended or held run; otherwise the run goes to the state the item saved |
| `Coordinator.Coordinator.HandleTurnCompleted` | src/collaboration/collaborationRuntime.js:2767-2843 | only the role that serves the state is heard; a worker's turn hands over and passes a gate only where it is off; a judgement lets the run through, sends it back and counts that, or fails it at a used-up gate; no turn moves the run without being counted |
| `Coordinator.TurnMeans` | src/collaboration/collaborationRuntime.js:2767-2843 | whose turn it is in every state, with and without a verifier, and what that turn does |
| `EventLog.AppendKeepsCount` | src/collaboration/collaborationStore.js:2852-2889 | after an append every run's log is again numbered 1 to its counter |
| `EventLog.RunLogRepeatsNothing` | src/collaboration/collaborationStore.js:2833-2840 | within a run ids differ and non-empty keys differ |
| `EventLog.PageContinues` | src/collaboration/collaborationStore.js:3059-3098 | a page takes a reader from the filtered first `after` events exactly to the filtered first `next` ones, and makes progress while there is more |
| `EventLog.PageMeans` | src/collaboration/collaborationStore.js:3059-3098 | that over every log numbered 1 to its length |
| `EventLog.FollowPages` | src/collaboration/collaborationStore.js:3089-3097 | following `next_sequence` while there is more stops and yields the filtered log in order, each event once, while the log grows |
| `EventLog.EventStore.RecordExecutionEvent` | src/collaboration/collaborationStore.js:2828-2893 | a repeated id or key changes nothing and returns a matching stored event, of another run only if that run used the id; otherwise one event with the next number |
| `EventLog.AnswersAreOwnExactlyWhen` | src/collaboration/collaborationStore.js:2833-2840 | every stored event that may answer belongs to the caller's run if and only if no other run has used the id |
| `EventLog.AtMostTwoAnswers` | src/collaboration/collaborationStore.js:2833-2840 | at most two events may answer: one by its id, one of the caller's run by its key |
| `EventLog.ForeignEventAnswers` | src/collaboration/collaborationStore.js:2833-2840 | a table of two runs in which an id is reused: the second run's event is answered by the first one's, alone or as one of two |
| `EventLog.EventStore.ListExecutionEventPage` | src/collaboration/collaborationStore.js:3059-3098 | for any number, filter and limit: exactly the run's events that the filter lets through among the at most 200 numbers after the given one, in ascending order, and the number to go on from |
| `Reporter.NoticesMatchStarts` | src/agent/bridgeReporter.js:338-383 | never more result or failure notices than reported starts |
| `Reporter.Latch` | src/agent/bridgeReporter.js:338-383 | what is sent for an event and the latch after it |
| `Reporter.DeliveringFits` | src/agent/bridgeReporter.js:402-412 | waiting and delivered keys stay disjoint and unrepeated whether or not a delivery succeeds |
| `Reporter.KeyArrivesOnce` | src/agent/bridgeReporter.js:393-411 | no key is delivered successfully twice |
| `Reporter.RuntimeReporter.Report` | src/agent/bridgeReporter.js:219-413 | an event is queued unless it starts a task while one runs or its request or decision is already waiting or delivered; what it is shown as, a notice while a task runs and the plain event otherwise; numbers 1, 2, 3 and so on without gaps |
| `Reporter.KeysTell` | src/agent/bridgeReporter.js:219-413 | two events share a key if and only if they are the same request or the same decision |
| `Reporter.RuntimeReporter.Deliver` | src/agent/bridgeReporter.js:402-412 | the oldest report is taken from the queue and recorded if it arrived |

## Left out

- The floating-point ratio of usage to limit: limits are compared on integers, `used >= limit`.
- Interleavings inside one handler other than the one at the launch of a remote agent, which is two steps here.
- RunStore.CollaborationStore.Transition: says nothing about agreement after a transition into a hold, which no caller makes.
- AdaptiveTraces.StepCounts: a blocked or failed message to a planned run sets all its tasks to blocked or failed, completed ones too (`src/collaboration/planImplementVerifyCoordinator.js:76-79`); it is no event here.
- RunStore.CollaborationStore.ListAccountBudgetRunIds: the order by run id is not stated; each run is handled by itself, so no result depends on it.
- AccountBudget.AccountRuntime.HandleStatus: the messages, interrupts and dispatches inside the loop are not modelled; statuses are handled one after the other, as the program's queue arranges.
- AdaptiveRuns.Advance: the branch for a pending team change, the Planner's turn and session continuation are not modelled.
- AdaptiveRuns.AdaptiveRun.DispatchAdaptive: leaves out the same branches as Advance.
- AdaptiveRuns.RoundLeavesSomethingActive: assumes that every writing task has a workspace, because the program never runs one without.
- Fencing.GateIsExact: is about lease-stamped frames with complete identity; peers without fences are covered by the tables and by StopBlocksLowerFences, without a monotonicity claim.
- Fencing.CancellationsConverge: needs attempt and fence issued together, as `issueAgentLease` does; MergeCommutes says what happens otherwise.
- Stranding.CanFinishExactlyWhenServed: is about runs whose agents never fail; a failed turn ends the run.
- EventLog.EventStore.ListExecutionEventPage: the revision number in a page is not modelled.
- Coordinator.Coordinator.Start: covers the gated template; planned runs start in other states and are modelled by AdaptiveRuns.
- Coordinator.Coordinator.Hold: which hold applies and when it is lifted is the caller's choice here; RunStore has the guards.
- Coordinator.Coordinator.BlockForAgentRecovery: whether the attention item is stored already is a parameter, `known`.
- HistorySync.HistorySync.UploadVersion: saved version numbers are natural numbers, and the error codes of the service are grouped into row errors, the incomplete manifest and all others.
- SHA-256 is taken as injective: a fingerprint is represented by the text that is hashed.
- Numbers in canonical text are identified with the text JavaScript prints for them, so negative zero is zero; sparse arrays, functions, symbols and `toJSON` do not occur.
- One scan of the history runs at a time, as `src/daemon/daemon.js:297` arranges; two at once could overwrite each other's saved versions.
- A catalogue that changes between scans: the rotation results are about an unchanged one.
- Transcript readers, redaction and the making of entries: the entries of a transcript are given.
- The Planner's own row and turn, session continuation and team changes, which may replace an agent and its fence.
- The outbox with its retries, the renewal of leases by heartbeat, and expiry of leases, plans and archives.
- Ordering and page numbers of the run list; stored attention items appear as one flag.
- Prompt texts, summaries, display and telemetry fields, pricing tables, artifacts and permissions.
- The relay, HTTP, SQLite, processes and clocks themselves; fresh ids are parameters.
