# A verified model of the Agent Communication Bus task engine

The Agent Communication Bus keeps tasks, gates, agents and an event log in one database. Many
requests, sweeps and pollers act on it at once, and no repository method runs in a transaction.
This project models that engine in Dafny and proves what its status guards, its counting parent
check, its retry limit, its retry queues and its event cursor are worth, and where they are not
enough.

Check it with `dafny verify dfyconfig.toml`.

## Two views of the same code

- **Interleaved** (`Interleaving`, `Invariant`, `Theorems`, `Hypotheses`, `Stuck`, `Promotion`, `EventQueue`,
  `Trail`, `Witnesses`). A step is one SQL statement of one call in flight. A call records where it is (`ClaimAfterParentCheck`,
  `BlockBeforeCreateGate`, `UnblockAfterResolve`, `FailAfterUpdate`, ...) and which event it still has
  to insert. Any two calls interleave anywhere, any call can stop for good at any point (`Abort`), any
  event insert can fail unnoticed (`LogDrop`), and the loops go on after an error on one task (`Skip`).
  The three writes that have no status guard are unguarded here too.
- **Whole calls** (`TaskRepo`, `Handlers`, `Orchestrator`, `Timeout`, `Dispatch`, `RetryQueue`, `Cursor`,
  `Artifacts`). Classes whose methods change tables in place, with the loops the code has, each proved
  against its full effect on tables and log.

`ArtifactRace` interleaves the requests on one artifact list in the same way, and `RetryRace` the dispatches and
workers on one retry queue. `Serial` connects the two views: the
statements of a call, run one after the other without interruption, do exactly what the contract of the whole call says.

Actions of the interleaved view and the statements they stand for:
in internal/db/task_repo.go `Create` (136-146), `ClaimWrite` (299-302), `StartWrite` (322-325), `BlockWrite` (345),
`UnblockWrite` (282-285), `CompleteWrite` (362), `SelectChildren` (810-813), `CheckChild` (829-838), `FailWrite` (400),
`FailRead` (417-423), `RetryWrite` (424-427), `SelectHeld` (495-498), `ReleaseWrite` (515-518), `SelectOverAge` (452-457),
`ExpirePendingWrite` (478-481), `SelectStale` (553-562), `ExpireStaleWrite` (584-587), `HeartbeatWrite` (531-534),
`LogInsert` and `LogDrop` (862-866); in internal/db/gate_repo.go `CreateGateWrite` (23-27), `AskGate` (94-97),
`AnswerGate` (59-62), `ResolveWrite` (109-112); and `CheckParents` in internal/api/task_handler.go (183-194). A check of
one child or of one claim reads a row and counts; it is one step here because the list of parents in the row never changes.

## The two hypotheses

- **H1** (`ObeysH1`): an unblock call that resolves a gate resolves one that was created for the same task. The unblock
  handler does not compare them (internal/api/task_handler.go:382-390). The repository's own client obeys H1; this is
  proved of the calls that reach the handler (`Orchestrator.Client.HandleBlockedTasks`).
- **H2** (`ObeysH2`): the write of an agent release, which has no guard, finds its task claimed, in progress, or pending
  again (internal/db/task_repo.go:514-518). That is weaker than leaving the selected tasks alone between the SELECT and
  the write: `Hypotheses.UndisturbedObeysH2` proves that leaving them alone implies H2, and
  `Witnesses.StartDuringRelease` is a run that obeys H2 and does not leave them alone.

`Obeys` is both together, and both are exact: a step keeps the invariant, leaves completed tasks completed, and lets failed
tasks go only by the retry of a call that is failing them, if and only if it obeys both (`Hypotheses.StepSoundExactly`, `Hypotheses.HypothesesExact`). For each result that requires one of them,
`Witnesses` has a concrete short run that obeys the other and breaks the result:

| results | broken without H1 by | broken without H2 by |
|---|---|---|
| blocked tokens, unblock only unblocks, owner and claim counts | WithoutH1PendingTaskRuns | WithoutH2BlockedIsReleased |
| parents done before work, ancestors | WithoutH1PendingTaskRuns, WithoutH1AncestorIsLeftOut | WithoutH2AncestorIsLeftOut |
| cycles and repeated parents | WithoutH1PendingTaskRuns | not needed |
| completed for good, bound on status changes, lifecycle edges | WithoutH1CompletedIsLeft | WithoutH2CompletedIsLeft |
| retry bound, one failing call, failed left only by its retry | WithoutH1RetriesPassLimit | WithoutH2RetriesPassLimit |
| promoted only when done | WithoutH1PromotionIsUndone | WithoutH2PromotionIsUndone |
| blocked for good | WithoutH1StrandedIsFreed | WithoutH2StrandedIsFreed |

No lost promotion, the truthful audit trail and the use of every retry before a task stays failed need neither.

## What was found

- A task with a repeated parent id can never be claimed: the counting check compares a number of distinct rows with
  a length. A new-task webhook, which checks parents one by one, still announces it.
- A block call whose gate id is taken, and a block or unblock call that stops before its second write, leave the task
  blocked for good under H1 and H2. A blocked task has a way on if and only if its one token is an unresolved gate, a
  running unblock, or a running block whose gate id is free.
- A whole timeout check is not always enough: the third pass can release a task that is over age after the first
  pass is over. One check settles the database if and only if every over-age task that a stale agent holds is one that the
  second pass stops; two checks always do.
- However calls overlap, the log tells every row once nothing waits to be inserted, provided that the events of each task
  are inserted in the order of its writes, none is lost, and an expiration event is only logged for a task that the
  expiration changed or that was failed already. The code enforces none of the three. Which waiting events may be
  inserted out of turn, or lost, without harm can be read off their kinds. Inserting the newest event first, when it moved
  the status, always ends in a wrong trail, under H1 and H2; a claim that logs before the creation of its task does is such
  a run, and the same two calls logging in the order of their writes are not.
- The event of `UpdateStatus` does not carry the status, so the trail stays truthful if and only if the status written is
  in_progress, which is what its only caller writes.
- Deleting an artifact under a key of another task breaks the agreement of lists and store, and so can any request when
  one task id is a prefix of another up to a slash; the exact conditions are in the contracts. Overlapping requests keep the
  agreement if none starts on a key in flight and none writes the list while another relies on it. Two that both rely on
  it and then write keep it only if the first changed nothing that the second leaves alone. An upload that finishes inside a
  cleanup ends stored and not listed.
- `BlockTask` reports an unknown task as a conflict with no status; the other guarded updates report it as not found.
- A poller whose name is not registered reports the newest page on every run.
- README.md:117 of the repository gives webhook backoffs of 5, 25 and 125 seconds. The code waits 2, 4, 8 and 16 seconds
  (internal/dispatcher/dispatcher.go:370-377); the model follows the code.

## Assumptions

One SQL statement, one Redis command and one object-store call each take effect at once or not at all. Event ids increase in
the order in which rows become visible. The pattern `parents LIKE '%id%'` selects every pending task that lists the
id, and may select others (`spurious`); ids have no characters that JSON escapes. Times are integers in seconds.
The clock, the order in which rows are listed, the outcome of a webhook and the failures of the object store are arbitrary.

## Model

| member | source | states |
|---|---|---|
| Schema.CountingCheckExact | internal/db/task_repo.go:200-216 | The COUNT over the IN list equals the length exactly when all listed parents exist and are completed and none is repeated. |
| Schema.CountingCheckVersusPlain | internal/dispatcher/dispatcher.go:98-107 | The counting check implies the one-by-one check, and the two agree exactly on duplicate-free lists or when some parent is not completed. |
| Invariant.StepKeeps | internal/db/task_repo.go:281-596 | Every single statement that respects H1 and H2 keeps the invariant: one token per blocked task, parents done before work, retry counts in range, reads of calls in flight still valid, one failing call per task. |
| Invariant.ReachableInv | internal/db/task_repo.go:281-596 | Every state of every interleaved run under H1 and H2 satisfies the invariant. |
| Invariant.ClaimWriteKeeps | internal/db/task_repo.go:298-319 | A claim write of a call that checked parents earlier keeps the invariant, whatever ran in between. |
| Invariant.BlockWriteKeeps | internal/db/task_repo.go:344-359 | The first write of a block keeps the invariant, and afterwards the call is the one token of the task. |
| Invariant.CreateGateWriteKeeps | internal/db/gate_repo.go:19-29 | The second write of a block keeps the invariant; before it the call is the one token of the task, after it the new gate is, or still the call when the gate id is taken. |
| Invariant.ResolveWriteKeeps | internal/api/task_handler.go:382-385 | Under H1, resolving a gate keeps the invariant; before it the gate is the one token of the task, after it the call is. |
| Invariant.UnblockWriteKeeps | internal/api/task_handler.go:387-390 | The unguarded write of unblock keeps the invariant; the call is the one token of the task before it, and the task has none after it. |
| Invariant.RetryWriteKeeps | internal/db/task_repo.go:424-431 | The unguarded retry write keeps the invariant, and it finds its task failed with a retry left. |
| Invariant.ReleaseWriteKeeps | internal/db/task_repo.go:514-523 | Under H2, the unguarded release write keeps the invariant. |
| Hypotheses.GateOfTaskExact | internal/api/task_handler.go:382-385 | Resolving a gate keeps the invariant if and only if the gate is of the task being unblocked. |
| Hypotheses.ReleaseTooLate | internal/db/task_repo.go:514-518 | Outside H2 a release write finds its task blocked, completed or failed and makes it pending: a blocked task keeps a token it should not have, and a failing call loses its failed task. |
| Hypotheses.StepSoundExactly | internal/db/task_repo.go:281-596 | From an invariant state, a step keeps the invariant, leaves completed tasks completed and failed tasks failed but for the retry of a call that is failing them, if and only if it obeys H1 and H2. |
| Hypotheses.HypothesesExact | internal/db/task_repo.go:281-596 | The runs that obey H1 and H2 are exactly the runs in which every step is sound in that sense. |
| Hypotheses.UndisturbedObeysH2 | internal/db/task_repo.go:495-518 | If nothing else changes the status of a task between the SELECT of a release and its write, the run obeys H2 and every selected task is held. |
| Theorems.BlockedExactlyByOneToken | internal/api/task_handler.go:316-342 | Under H1 and H2 the number of tokens of a task is one if it is blocked and zero otherwise, in every reachable state. |
| Theorems.UnblockOnlyUnblocks | internal/db/task_repo.go:281-295 | Whenever an unblock is past its first write its task is blocked, so the unguarded update only takes blocked to in_progress. |
| Theorems.ParentsDoneBeforeWork | internal/api/task_handler.go:183-229 | Every claimed, in_progress, blocked or completed task has all parents completed and no parent repeated. |
| Theorems.MarkedRow | internal/db/task_repo.go:281-518 | What each kind of successful write does to the row, for all the statements that write a status. |
| Theorems.UnmarkedIsStill | internal/db/task_repo.go:530-543 | Any other action changes at most the heartbeat of a row. |
| Theorems.StatusStep | internal/db/task_repo.go:281-518 | Under H1 and H2 every write, guarded or not, goes along its edge of the lifecycle graph, and nothing else changes a status. |
| Theorems.LifecycleGraph | internal/db/task_repo.go:281-596 | Under H1 and H2 the status of a task moves only along the eleven edges of the lifecycle, written out status by status. |
| Theorems.RowKept | internal/db/task_repo.go:424-427 | No action removes a row or changes its parents or limit, and only a retry write moves the retry count, by one. |
| Theorems.AssigneeKept | internal/db/task_repo.go:298-302 | Only a claim, a retry or a release write changes the assignee, and to what. |
| Theorems.FailingStep | internal/db/task_repo.go:399-443 | While a FailTask call is between its writes nothing else happens to its task. |
| Theorems.BalanceStep | internal/db/task_repo.go:298-527 | In one step under H1 and H2 the tallies of claims and of returns to pending stay within one of each other, by status. |
| Theorems.ClaimsBalance | internal/db/task_repo.go:298-314 | Successful claims and returns to pending alternate in every run. |
| Theorems.OneOwnerPerPendingPeriod | internal/api/task_handler.go:166-229 | Each stay in pending ends with at most one successful claim, and a claimed, in_progress or blocked task has a non-empty assignee, the last successful claimer. |
| Theorems.OwnerIsLastClaimer | internal/db/task_repo.go:298-302 | The owner of a held or blocked task is the agent of its last successful claim. |
| Theorems.RetryCountCounts | internal/db/task_repo.go:424-427 | In any run at all, retry_count is the number of retry writes on the task. |
| Theorems.RetriesBounded | internal/db/task_repo.go:399-443 | retry_count stays within max(0, max_retries); at most one FailTask per task is between its writes and the task is failed all that time. |
| Theorems.FailedOnlyWithoutRetries | internal/db/task_repo.go:399-443 | Over any interleaving, a task that a FailTask call took into failed is failed only while that call is between its writes, running or stopped, or because retry_count has reached max(0, max_retries); under H1 and H2 it is exactly that then. |
| Theorems.StatusChangesBounded | internal/db/task_repo.go:298-596 | The status changes of a task number at most 3 + 4 retries + 3 releases + 2 blocks, with retries within the limit. |
| Theorems.AllowanceHolds | internal/db/task_repo.go:298-596 | The same bound with the changes still ahead included, so the budget is never overdrawn later. |
| Theorems.CompletedForever | internal/db/task_repo.go:361-376 | Once completed, a task is completed at every later moment of the run. |
| Theorems.FailerEntered | internal/db/task_repo.go:399-414 | A call that is failing a task is the one that took the task into failed last. |
| Theorems.FailedLeftOnlyByOwnRetry | internal/db/task_repo.go:424-427 | Failed is left only by the retry write of the FailTask call that entered it, and only to pending. |
| Theorems.AncestorsCompletedAt | internal/api/task_handler.go:183-194 | At any moment when a task is worked on or completed, every task above it on any path of parents is completed. |
| Theorems.AncestorsBeforeLastClaim | internal/api/task_handler.go:183-194 | A completed task was claimed, and all its transitive ancestors were completed already right after its last claim, and are now. |
| Theorems.KnotLeftAlone | internal/db/task_repo.go:200-216 | Under H1, members of a set of tasks that wait for each other are never claimed, checked, blocked or gated. |
| Theorems.CycleNeverClaimed | internal/db/task_repo.go:200-216 | Under H1 a task on a parent cycle, a self-parent included, is never claimed and is pending or failed. |
| Theorems.RepeatedParentNeverClaimed | internal/db/task_repo.go:200-216 | Under H1 the same holds for a task that lists a parent twice. |
| Theorems.BelowKnotNeverClaimed | internal/db/task_repo.go:200-216 | And for every task with a cycle or a repeated parent anywhere above it. |
| Stuck.DeadStaysDead | internal/api/task_handler.go:316-342 | A call that has stopped never changes again. |
| Stuck.BlockedForGood | internal/api/task_handler.go:316-342 | Under H1 and H2, a task whose block or unblock stopped before its second write, or whose block named a taken gate id, is blocked at every later moment. |
| Stuck.MovesOn | internal/api/task_handler.go:382-390 | From a blocked task that can move on, a continuation under H1 and H2 that puts it in progress. |
| Stuck.MovesOnExactly | internal/api/task_handler.go:316-390 | A blocked task has a continuation under H1 and H2 that unblocks it if and only if its one token is an unresolved gate, a running unblock, or a running block whose gate id is free. |
| Promotion.NoLostPromotion | internal/db/task_repo.go:361-389 | A child with a duplicate-free parent list that stays pending while its parents complete in any interleaving has a ParentsCompleted event once no promoting call has stopped early or has work left; no hypothesis needed. |
| Promotion.PromiseStep | internal/db/task_repo.go:809-842 | The one-step form: some parent is unfinished, or the event is logged, or a running call is in charge of it. |
| Promotion.LastParentCompletes | internal/db/task_repo.go:361-365 | Only a successful complete write of a listed parent can finish a list of parents. |
| Promotion.ChargeKept | internal/db/task_repo.go:809-842 | A call in charge of promoting a child stays in charge, whatever else happens, until it has logged. |
| Promotion.QuietExactly | internal/db/task_repo.go:809-842 | A quiet wait, as the theorem assumes it, is exactly a stretch of a run in which the child is pending at every moment and no step makes a promoting call give up. |
| Promotion.GivingUpExactly | internal/db/task_repo.go:809-842 | A step ends the duty of a promoting call without the event being logged if and only if that call stops, skips the child, or drops the last trace of it. |
| Promotion.PromotedOnlyWhenDone | internal/db/task_repo.go:829-838 | Under H1 and H2, a logged ParentsCompleted event means that all parents of the task are completed. |
| Witnesses.WithoutH1PendingTaskRuns | internal/api/task_handler.go:382-390 | Without H1: an unblock call past its first write has a pending task; after its second write that task, whatever its parents, runs with no owner, no claim and unfinished parents, and another task is blocked without a token. |
| Witnesses.WithoutH1CompletedIsLeft | internal/api/task_handler.go:382-390 | Without H1: completed is left, and the bound on status changes is passed. |
| Witnesses.WithoutH1AncestorIsLeftOut | internal/api/task_handler.go:382-390 | Without H1: a task that was never claimed is completed while its parent is not. |
| Witnesses.WithoutH1RetriesPassLimit | internal/db/task_repo.go:424-427 | Without H1: failed is left without a retry, two calls are failing one task, and retry_count passes max_retries. |
| Witnesses.WithoutH1PromotionIsUndone | internal/api/task_handler.go:382-390 | Without H1: a promoted child has an unfinished parent. |
| Witnesses.WithoutH1StrandedIsFreed | internal/api/task_handler.go:382-390 | Without H1: a task whose block stopped is put in progress by an unblock with the gate of another. |
| Witnesses.WithoutH2CompletedIsLeft | internal/db/task_repo.go:495-518 | Without H2: completed is left for pending, and the bound on status changes is passed. |
| Witnesses.WithoutH2AncestorIsLeftOut | internal/db/task_repo.go:495-518 | Without H2: a child in progress, and later completed, has a parent that is not completed. |
| Witnesses.WithoutH2BlockedIsReleased | internal/db/task_repo.go:495-518 | Without H2: a blocked task becomes pending with its token left; later in the same run an unblock call past its first write has a pending task, and then the task is in progress with no owner and as many claims as returns. |
| Witnesses.WithoutH2RetriesPassLimit | internal/db/task_repo.go:495-518 | Without H2: failed is left without a retry, two calls are failing one task, and retry_count passes max_retries. |
| Witnesses.WithoutH2PromotionIsUndone | internal/db/task_repo.go:495-518 | Without H2: a promoted child has an unfinished parent. |
| Witnesses.WithoutH2StrandedIsFreed | internal/db/task_repo.go:495-518 | Without H2: a task whose block stopped becomes pending. |
| Witnesses.StartDuringRelease | internal/db/task_repo.go:495-518 | A run that obeys H1 and H2 although an agent starts its task between the SELECT of a release and its write. |
| Witnesses.TakenGateIdStrands | internal/api/task_handler.go:316-342 | A run under H1 and H2 in which a block names the gate id of another task, and its own task cannot move on. |
| Witnesses.AbortedUnblockStrands | internal/api/task_handler.go:382-390 | A run under H1 and H2 in which an unblock stops between its writes, and its task cannot move on. |
| Audit.TellsAfter | internal/db/task_repo.go:862-866 | Appending the event that a row change stands for keeps the replay of the log equal to the table. |
| Audit.ReplayAppend | internal/db/task_repo.go:862-866 | One more event moves only the replay of its own task. |
| Audit.TrailDetermines | internal/db/task_repo.go:862-866 | A log that tells a table determines which tasks there are, and the status, owner and retry count of each. |
| EventQueue.MovedExactly | internal/db/task_repo.go:281-596 | Replaying a queue with its i-th event first gives the same snapshot if and only if that event is the oldest, or it does not decide the final status, or agrees on it with the one before, and the same for the assignee. |
| EventQueue.DroppedExactly | internal/db/task_repo.go:281-596 | Replaying a queue without its i-th event gives the same snapshot if and only if that event is no retry and decides neither the final status nor the final assignee. |
| Trail.NoteTells | internal/db/task_repo.go:281-596 | The event a write leaves for insertion turns the old row into the new one, except exactly when it is an expiration event for a row that the expiration did not change and that was not failed. |
| Trail.QueueHolds | internal/db/task_repo.go:862-866 | At every moment of every run the queue of a task, built up from its writes, holds exactly its waiting events, one for each call, oldest write first. |
| Trail.StepCourseExactly | internal/db/task_repo.go:281-596 | If inserting the queue in order would make the log tell the row, a step leaves it so if and only if a noted event is true and an event inserted or lost leaves what the queue says as it is. |
| Trail.InOrderTrailTellsState | internal/db/task_repo.go:862-866 | For any overlap of calls: if each insert takes the oldest waiting event of its task, none is lost and no expiration event is untrue, then whenever nothing waits, replaying the log gives exactly the status, assignee and retry count of every task; neither H1 nor H2 is needed. |
| Trail.CourseExactly | internal/db/task_repo.go:281-596 | The runs whose trail of a task is on course at every moment are exactly those whose steps keep it. |
| Trail.OutOfTurnExactly | internal/db/task_repo.go:862-866 | For a task whose creation is logged, inserting a waiting event next keeps the course if and only if it is the oldest, or neither the final status nor the final assignee hangs on its place, as read off the kinds of the events. |
| Trail.LossExactly | internal/db/task_repo.go:862-866 | And losing one keeps the course if and only if it is no retry and neither the final status nor the final assignee hangs on it. |
| Trail.Drained | internal/db/task_repo.go:862-866 | From any run, inserting what waits for a task in order empties its queue, under the same hypotheses, and afterwards the log tells the row if and only if the run was on course. |
| Trail.WrongOrderMisleads | internal/db/task_repo.go:862-866 | Whatever the length of the queue: inserting the newest event first, when the one before it stands for another status, and then the rest in order, ends in a wrong trail with nothing of the task waiting. |
| Trail.OverlapInOrderTells | internal/db/task_repo.go:136-316 | Under H1 and H2, a task is claimed while its creation still waits to be logged, the two events go in as their writes did, and the log tells the row. |
| Trail.InterleavedLogMisleads | internal/db/task_repo.go:136-316 | The same two calls with the claim logged first: that insert alone is out of order, nothing is lost, and the log tells something else than the row. |
| TaskRepo.TaskRepo.LogTaskEvent | internal/db/task_repo.go:862-866 | Appends one event. |
| TaskRepo.TaskRepo.Create | internal/db/task_repo.go:110-153 | Inserts a pending row with every column as the client sent it, no retry used and no heartbeat, and logs the creation; a taken id changes nothing; the trail stays truthful. |
| TaskRepo.TaskRepo.ClaimTask | internal/db/task_repo.go:298-319 | Pending to claimed with the assignee set and one event; otherwise not-found or a conflict naming the status, and no change; the trail stays truthful. |
| TaskRepo.TaskRepo.StartTask | internal/db/task_repo.go:321-342 | Claimed to in_progress, same shape. |
| TaskRepo.TaskRepo.BlockTask | internal/db/task_repo.go:344-359 | Claimed or in_progress to blocked with one event; otherwise a conflict naming the status, or no status for an unknown id, and no change; the trail stays truthful. |
| TaskRepo.TaskRepo.UpdateStatus | internal/db/task_repo.go:281-296 | Writes any status over any status; the trail stays truthful if and only if nothing was written or the status is in_progress. |
| TaskRepo.TaskRepo.FailTask | internal/db/task_repo.go:399-443 | An in_progress row with max_retries above zero and retry_count below it ends pending, unowned, with retry_count one higher; any other in_progress row ends failed with its count kept; one or two events; anything else is refused and changes nothing. |
| TaskRepo.TaskRepo.AreParentsCompleted | internal/db/task_repo.go:200-216 | True exactly when all parents are completed and none is repeated. |
| TaskRepo.TaskRepo.CheckParentsCompleted | internal/db/task_repo.go:795-804 | The same for the parents of a task, false for an unknown task. |
| TaskRepo.TaskRepo.PromoteChildren | internal/db/task_repo.go:809-842 | Logs exactly one ParentsCompleted event for each pending task that lists the id, or is matched by accident, and whose parents are all completed and distinct; changes no row. |
| TaskRepo.TaskRepo.CompleteTask | internal/db/task_repo.go:361-389 | In_progress to completed with its event, followed by one promotion event for each such pending child in the new table; otherwise refused and nothing changes. |
| TaskRepo.TaskRepo.ExpirePendingTasks | internal/db/task_repo.go:447-490 | Exactly the pending rows created before now less the limit become failed, one event each, every other row stays; a limit of zero or less is an error. |
| TaskRepo.TaskRepo.ExpireStaleInProgressTasks | internal/db/task_repo.go:548-596 | Exactly the in_progress rows whose heartbeat, or creation if they have none, is before now less the limit become failed, one event each; off for a limit of zero or less. |
| TaskRepo.TaskRepo.ExpireEach | internal/db/task_repo.go:474-487 | The guarded write loop: rows of the guarded status become failed, an event is logged for every id, and the trail stays truthful when all guards hold. |
| TaskRepo.TaskRepo.ReleaseAgentTasks | internal/db/task_repo.go:494-527 | Exactly the claimed and in_progress rows of the agent become pending with no owner, one event each, and every other row stays. |
| TaskRepo.TaskRepo.UpdateTaskHeartbeat | internal/db/task_repo.go:530-543 | Sets the heartbeat of a known task and nothing else, logs nothing, and the trail stays truthful. |
| TaskRepo.PromotionTellsNothingNew | internal/db/task_repo.go:837 | A ParentsCompleted event leaves every replay as it was. |
| Handlers.CoversSkills | internal/api/task_handler.go:208-222 | The nested search answers yes exactly when each required skill is among the agent's, so always for none; the same search as in internal/db/agent_repo.go:223-242. |
| Handlers.GateRepo.CreateGate | internal/db/gate_repo.go:19-29 | Inserts an unasked gate; a taken id or an unknown task is refused. |
| Handlers.GateRepo.AskGate | internal/db/gate_repo.go:93-106 | Pending to asked with the answer, or no change. |
| Handlers.GateRepo.AnswerGate | internal/db/gate_repo.go:58-71 | Asked to answered with answer and time, or no change. |
| Handlers.GateRepo.ResolveGate | internal/db/gate_repo.go:108-121 | Answered to resolved, or no change. |
| Handlers.TaskHandler.ClaimTask | internal/api/task_handler.go:155-248 | Succeeds exactly for a named agent and a pending task with finished, unrepeated parents, and if it requires skills, for a registered agent that has every one of them; which refusal is given in every other case; whole effect on table and log, none on refusal. |
| Handlers.TaskHandler.BlockTask | internal/api/task_handler.go:287-352 | Blocks a claimed or in_progress task and opens an unasked gate; on a taken gate id it answers with an error and the task is blocked all the same; which refusal is given otherwise. |
| Handlers.TaskHandler.UnblockTask | internal/api/task_handler.go:354-407 | Resolves the named gate and puts the named task in progress whatever its status; succeeds exactly when task and answered gate exist; the call is recorded. |
| Handlers.TaskHandler.AnswerGate | internal/api/task_handler.go:412-459 | Accepts an answer exactly for an unasked gate of that very task. |
| Handlers.TaskHandler.ApproveGate | internal/api/task_handler.go:726-772 | Accepts an approval exactly for an asked gate of that very task. |
| Orchestrator.Client.ApproveAndUnblock | scripts/acb-orchestrator-poller.py:132-150 | How far the client gets with a gate that was listed as asked, by its status now and by which of the two requests arrive and are answered; the whole effect in each case. |
| Orchestrator.Client.HandleTask | scripts/acb-orchestrator-poller.py:130-150 | Of a possibly outdated gate list, exactly gates that were listed as asked and still are get approved or settled, all of them when no request is lost; nothing else changes, and every unblock call that reaches the handler names a gate of its task. |
| Orchestrator.Client.HandleBlockedTasks | scripts/acb-orchestrator-poller.py:117-150 | The pass over possibly outdated task and gate lists, with any requests lost: only asked gates of tasks listed as blocked are touched, all of them are settled when nothing is lost and no asked gate is missing from the lists, every other gate and task stays, and every unblock call obeys H1. |
| Orchestrator.PassedTwice | scripts/acb-orchestrator-poller.py:122-131 | Passing some gates after others passes them all, tables included. |
| Timeout.TimeoutService.ListStale | internal/db/agent_repo.go:176-205 | Names an agent exactly when it has no heartbeat or one before the cutoff, each once. |
| Timeout.TimeoutService.ReleaseStale | internal/timeout/timeout.go:98-117 | Releases, each once, exactly the claimed and in_progress tasks whose assignee is an agent without a heartbeat or with one before now less the limit. |
| Timeout.TimeoutService.Check | internal/timeout/timeout.go:80-118 | What one whole check makes of each row, in terms of that row and the agents before it: failed, released or untouched, by which limits and cutoffs; and one event for each task a pass touched, pass by pass. |
| Timeout.CheckedRow | internal/timeout/timeout.go:80-118 | The three passes one after the other amount to one decision on each row: expire or stop first, else release if a silent agent holds it. |
| Timeout.CheckClears | internal/timeout/timeout.go:80-118 | After one check no task in progress is stale, no stale agent holds a task, and every over-age pending task was released by that check. |
| Timeout.ReleasedByCheck | internal/timeout/timeout.go:91-117 | What a check releases, read off the table before it: the tasks that stale agents hold and that the second pass does not stop. |
| Timeout.OneCheckSettles | internal/timeout/timeout.go:80-118 | One check leaves nothing to do if and only if, in the table before it, every over-age task that a stale agent holds is one the second pass stops. |
| Timeout.OneCheckMayNotSettle | internal/timeout/timeout.go:80-118 | A concrete table that one check does not settle. |
| Timeout.TwoChecksSettle | internal/timeout/timeout.go:80-118 | Two checks at one time always leave nothing to do. |
| Timeout.SettledStays | internal/timeout/timeout.go:80-118 | A check on a settled database selects nothing and changes nothing. |
| Timeout.ThirdCheckChangesNothing | internal/timeout/timeout.go:80-118 | After two checks at one time a third changes neither tables nor log. |
| Dispatch.Dispatcher.FindNextForAgent | internal/dispatcher/dispatcher.go:401-462 | Of the ready pending tasks whose skills the registered agent has, the first in list order among those of the smallest priority number; none exactly when there is no such task. |
| Dispatch.Dispatcher.Suits | internal/dispatcher/dispatcher.go:418-444 | The filter of the pull loop lets a task through exactly when its parents are completed and distinct and the agent has every required skill. |
| Dispatch.Dispatcher.PickBest | internal/dispatcher/dispatcher.go:450-461 | The first minimum of a non-empty list. |
| Dispatch.Dispatcher.FindMatchingAgents | internal/db/agent_repo.go:281-333 | Each agent whose skills cover the required ones, once. |
| Dispatch.Dispatcher.DispatchNewTask | internal/dispatcher/dispatcher.go:96-122 | Sent to exactly the agents with a webhook that have every required skill, once each, and to nobody while a parent is unfinished. |
| Dispatch.PullAgreesWithClaim | internal/dispatcher/dispatcher.go:401-462 | For a registered agent, pull considers exactly the tasks the claim handler would give it. |
| Dispatch.PullAgreesWithPush | internal/dispatcher/dispatcher.go:96-122 | Pull implies push for a pending task and an agent with a webhook, and they differ exactly on finished parent lists with a repetition. |
| Dispatch.UnregisteredClaims | internal/api/task_handler.go:197-206 | An unregistered name may claim exactly the ready tasks that require no skill, and pull offers it nothing. |
| RetryQueue.Queues.EnqueueRetry | internal/dispatcher/dispatcher.go:296-314 | The list gains the next attempt at its end and keeps all it had below 1000 elements, else its last 999; other lists stay; attempts stay from 1 to 5. |
| RetryQueue.Queues.SendWebhook | internal/dispatcher/dispatcher.go:231-293 | Only a POST that fails is queued again; everything else leaves all lists alone. |
| RetryQueue.Queues.RetryEntry | internal/dispatcher/dispatcher.go:357-397 | Unreadable entries and those of five attempts are dropped; others wait 1, 2, 4, 8 or 16 seconds by attempt and are sent once. |
| RetryQueue.Queues.TakeTurn | internal/dispatcher/dispatcher.go:345-351 | One turn of the pop loop, and what it costs. |
| RetryQueue.Queues.Drain | internal/dispatcher/dispatcher.go:338-354 | Whatever the list holds and however the POSTs go, the pop loop ends with the list empty within the POSTs and seconds its elements allow, and uses all of them when every POST is refused. |
| RetryQueue.Queues.DispatchAndDrain | internal/dispatcher/dispatcher.go:231-397 | Whatever the list holds, one dispatch adds at most 5 POSTs and 30 seconds of backoff to what draining the list may cost, and exactly that when all are refused and nothing is trimmed. |
| RetryQueue.TurnPays | internal/dispatcher/dispatcher.go:357-397 | A turn lowers the measure of the loop and costs no more POSTs and seconds than it frees. |
| RetryQueue.RefusedTurnPaysExactly | internal/dispatcher/dispatcher.go:357-397 | It costs exactly what it frees when refused and nothing is trimmed. |
| RetryQueue.DispatchBudget | internal/dispatcher/dispatcher.go:370-377 | The waits are 2, 4, 8 and 16 seconds: four retries and thirty seconds after a failed first POST. |
| RetryQueue.LengthBounded | internal/dispatcher/dispatcher.go:306-313 | If never more than k pushers are between trim and push, length plus such pushers is at most 999 + k, so 1000 when pushers take turns. |
| RetryQueue.TrimLeaves | internal/dispatcher/dispatcher.go:306-307 | A trim leaves the newest 999 elements, or the whole of a shorter list. |
| RetryQueue.PushIsWhole | internal/dispatcher/dispatcher.go:296-314 | A pusher that nothing interrupts does what EnqueueRetry does as a whole. |
| RetryQueue.TrimmedWhenFull | internal/dispatcher/dispatcher.go:306-307 | Over any interleaving, an element is only trimmed off by a trim that finds at least 999 younger ones listed. |
| RetryQueue.NothingLostNothingTwice | internal/dispatcher/dispatcher.go:306-353 | Under any interleaving of pushers and workers each pushed element is listed, popped once by one worker, or trimmed, and elements leave oldest first. |
| RetryQueue.AlwaysConserved | internal/dispatcher/dispatcher.go:306-353 | The list is always what was pushed less what left from its front. |
| RetryQueue.ExitsFinal | internal/dispatcher/dispatcher.go:338-353 | How an element left never changes later. |
| RetryRace.DispatchBounded | internal/dispatcher/dispatcher.go:296-397 | However dispatches, pushers and any number of workers interleave on one list, no dispatch makes more than 5 POSTs or waits more than 30 seconds, and it has at most one entry, listed or in hand. |
| RetryRace.DispatchIsWhole | internal/dispatcher/dispatcher.go:231-314 | A refused dispatch that nothing interrupts makes one POST and leaves its entry at the end of the newest 999. |
| RetryRace.RetryIsWhole | internal/dispatcher/dispatcher.go:338-397 | A pop and its retry, uninterrupted: dropped after five attempts, else waited for and sent, and a refused one goes back with its next attempt. |
| Cursor.PageIsNewest | internal/db/task_event_repo.go:42-65 | A page read backwards is the newest end of the backlog, and it leaves out exactly the oldest backlog-minus-limit events. |
| Cursor.BacklogIsRest | internal/db/task_event_repo.go:48-65 | The backlog is exactly the matching events past the cursor, ascending. |
| Cursor.OnPage | internal/db/task_event_repo.go:42-65 | An id is on the page if and only if a row past the cursor that passes the filter has it and fewer than the limit of newer rows are such. |
| Cursor.PageDescends | internal/db/task_event_repo.go:42-65 | The page is strictly descending. |
| Cursor.StepKeeps | scripts/acb-agent-poller.py:134-158 | Every step of inserts and polls keeps the protocol invariant and never lowers the cursor. |
| Cursor.CursorNeverDecreases | internal/db/agent_repo.go:264-277 | The stored cursor never goes back in any run of one poller, and reports are never taken back. |
| Cursor.EachEventOnce | scripts/acb-agent-poller.py:134-158 | No event is reported twice, only matching ones are, and between polls every matching event up to the cursor was reported once or passed over once. |
| Cursor.AllReportedWhenBacklogsFit | scripts/acb-agent-poller.py:134-158 | If every fetch met a backlog of at most 50, exactly the matching events up to the cursor were reported, each once. |
| Cursor.OldestSkippedForGood | internal/db/task_event_repo.go:42-65 | A longer backlog loses exactly its oldest part, for good, and the rest is in hand. |
| Cursor.PollIsWhole | scripts/acb-orchestrator-poller.py:173-201 | The four steps of a poll without an insert in between are one run of the script. |
| Cursor.TwoPollersInterfere | scripts/acb-agent-poller.py:131-158 | With two pollers under one name the cursor can go back and an event be reported twice. |
| Cursor.Server.InsertEvent | internal/db/task_event_repo.go:19-28 | Appends a row with a fresh, larger id. |
| Cursor.Server.ListSince | internal/db/task_event_repo.go:34-65 | Newest first, the answer has exactly the ids past the cursor of rows that are the named agent's or nobody's, or of any row when no agent is named, that fewer than the limit of newer such rows follow; a limit outside 1 to 200 becomes 50. |
| Cursor.Server.GetLastEventID | internal/db/agent_repo.go:246-261 | The stored cursor, absent for an unregistered name. |
| Cursor.Server.UpdateLastEventID | internal/db/agent_repo.go:264-277 | Stores the cursor of a registered name without comparing it to the old one. |
| Cursor.PollOnce | scripts/acb-agent-poller.py:116-162 | One run of a poller reports, newest first, exactly the 50 newest ids past the stored cursor, or past zero for an unregistered name, among the rows that are its own or nobody's, and stores the largest. |
| Artifacts.OneOwner | internal/api/artifact_handler.go:66 | Prefixes of different tasks do not overlap when ids have no slash. |
| Artifacts.Storage.AddArtifact | internal/db/task_repo.go:615-635 | Appends to the list of the task, refused for an unknown task. |
| Artifacts.Storage.RemoveArtifact | internal/db/task_repo.go:637-663 | Exactly the entries other than the key stay, each as often as it was listed and in the order in which they stood. |
| Artifacts.Storage.UploadArtifact | internal/api/artifact_handler.go:24-87 | On success the list and, if the store is on, the store gain the key; they agree afterwards if and only if the key is stored and every task whose prefix covers it lists it; a request that breaks off leaves them apart on that key only. |
| Artifacts.Storage.DeleteArtifact | internal/api/artifact_handler.go:165-206 | On success both lose the key and agree exactly when no other task lists it, so always for a key of the task with slash-free ids; a request that breaks off leaves them apart on that key only. |
| Artifacts.Storage.CleanupArtifacts | internal/api/artifact_handler.go:208-250 | Removes exactly the objects under the prefix of the task and empties its list; other lists and keys stay; they agree exactly when no other task lists a key under the prefix; a request that breaks off leaves them apart on this task's keys only. |
| Artifacts.AgreementIsEquality | internal/api/artifact_handler.go:66-82 | Agreement but for some keys means that of the others a task lists exactly the stored ones under its prefix; full agreement is equality of the two sets. |
| ArtifactRace.TurnsAgree | internal/api/artifact_handler.go:66-247 | Over any interleaving of uploads, deletes and cleanups, wherever they break off: if none starts on a key that a live request is in flight on, and none writes the list while another live one relies on it, then at every moment list and store agree on all keys not in flight. |
| ArtifactRace.OverlapExactly | internal/db/task_repo.go:615-663 | Two requests that both rely on the list and write it one after the other keep the agreement if and only if they write the same about every key that the second does not touch and no third is in flight on. |
| ArtifactRace.UpdatesOverlapExactly | internal/db/task_repo.go:615-663 | Of two uploads or deletes, that is the case if and only if the first did not change which keys are listed. |
| ArtifactRace.CleanupLosesUpload | internal/api/artifact_handler.go:228-247 | An upload that finishes between the listing of a cleanup and its list write always ends stored and not listed. |
| ArtifactRace.OverlappingUploadsLoseOne | internal/db/task_repo.go:615-635 | A run in which two uploads read the list before either writes it back: the first write alone breaks the rule, and at the end the first key is stored and not listed. |
| ArtifactRace.CleanupRunLosesUpload | internal/api/artifact_handler.go:228-247 | A run in which a cleanup lists before an upload begins and writes after it: the upload's list write alone is out of turn, and its key ends stored and not listed. |
| ArtifactRace.UploadIsWhole | internal/api/artifact_handler.go:66-84 | An upload that nothing interrupts adds its key to the store and to the end of the list. |
| ArtifactRace.DeleteIsWhole | internal/api/artifact_handler.go:165-206 | An uninterrupted delete removes its key from both. |
| ArtifactRace.CleanupIsWhole | internal/api/artifact_handler.go:208-250 | An uninterrupted cleanup empties both, in whatever order it erases. |
| Serial.ClaimIsWhole | internal/api/task_handler.go:183-229 | The statements of a claim, uninterrupted, do what the claim handler's contract says, a failed skill check included. |
| Serial.CreateIsWhole | internal/db/task_repo.go:110-153 | The same for a creation. |
| Serial.SingleWritesAreWhole | internal/db/gate_repo.go:58-106 | The same for the writes that are one statement: asking and answering a gate, and a heartbeat (internal/db/task_repo.go:530-543). |
| Serial.StartIsWhole | internal/db/task_repo.go:321-342 | The same for a start. |
| Serial.BlockIsWhole | internal/api/task_handler.go:316-342 | The same for a block, a taken gate id included. |
| Serial.UnblockIsWhole | internal/api/task_handler.go:382-390 | The same for an unblock. |
| Serial.FailIsWhole | internal/db/task_repo.go:399-443 | The same for FailTask and its retry. |
| Serial.FailsForGoodExactly | internal/db/task_repo.go:416-431 | In any run, a FailTask that nothing interrupts leaves its task failed if and only if retry_count has reached max(0, max_retries). |
| Serial.FailRefused | internal/db/task_repo.go:400-411 | A FailTask that finds no row in progress does nothing. |
| Serial.CompleteIsWhole | internal/db/task_repo.go:361-389 | The same for CompleteTask and its promotion loop. |
| Serial.CompleteRefused | internal/db/task_repo.go:362-374 | A CompleteTask that finds no row in progress does nothing. |
| Serial.ReleaseIsWhole | internal/db/task_repo.go:494-527 | The same for the release of an agent's tasks. |
| Serial.ExpireIsWhole | internal/db/task_repo.go:447-490 | The same for the expiration of pending tasks. |
| Serial.StopIsWhole | internal/db/task_repo.go:548-596 | The same for the expiration of tasks in progress. |

## Left out

- HTTP routing, JSON, responses, middleware, authentication, rate limiting, health checks, the dashboard and configuration: no state of the engine.
- Webhook payloads, signatures, URL checks and the transport: a send is an arbitrary success or failure. Status-change webhooks are not queued and are not modelled.
- The semaphore around sends and the timer that starts the retry worker: they decide when, not what.
- Redis publish and subscribe, titles, tags, bodies, summaries and failure reasons: no transition reads them.
- The agents' own registration, heartbeat and profile writes: agents are a table that operations read.
- The timestamp cursor of the event query and the listing of one task's events or graph: reads with nothing to keep.
- Reads at the end of a call that only fill a response.
- Create: duplicate ids are refused; other insert errors leave the table alone and are not told apart.
- EachEventOnce: this and the other run results on cursors are about one poller per name whose cursor reads and saves succeed. A script that dies between saving and printing loses that page.
- Drain: with other enqueuers and workers on the same list `RetryRace` bounds each dispatch, and nothing says when the list is empty.
- ApproveAndUnblock: requests of other clients in between are the business of the interleaved view.
- AreParentsCompleted: here and in the other whole calls a database error is not modelled; the interleaved view has it as `Abort`, `Skip` and `LogDrop`.
- The handlers for starting, completing and failing a task: each calls the repository method of its name and answers with what it returns.
- A dispatcher without Redis: it queues nothing, and every failed send is final.
- NoLostPromotion: a repeated parent is excluded, since the counting check never accepts such a list.
