# A verified model of the Work system

TinyOffice lets a company's employees work in the background. A **task** owns at most one **schedule** and
any number of **runs**; a due schedule queues runs, a **dispatcher** leases queued runs to idle employees,
an **executor** drives a language-model provider through a bounded number of turns, a **blocked** run opens a
**recovery request** in a conversation, and cancellation cuts across all of it. Five status machines -
task, schedule, run, lease and request - depend on one another, and most of what keeps them consistent is
checked by no single function.

This project models that system in Dafny and proves what every reachable state keeps, together with two
smaller cores of the same repository: the tool guard's glob compiler and the context harness's slimmer and
truncator.

## How the model is laid out

| files | what they hold |
|---|---|
| `Prelude`, `WorkDomain`, `WorkOperations` | texts, records, and what each operation of the Work service does to the five tables |
| `RunLog`, `Listings`, `WorkInvariants` | a run's log read as a path, listings of runs and slots, the promises about the tables |
| `LogsKept`, `RecordsKept`, `SchedulesKept`, `OneShotsKept`, `BooksKept` | every operation keeps every promise |
| `Company`, `CompanyInvariants`, `CompanyKept` | the whole company - tables, leases, requests - with one step for every public operation, and its invariant |
| `WorkHistory`, `CompanyHistory`, `CompanyTheorems`, `DispatchOrder`, `Exclusivity` | what no run of the system takes back; the theorems about reachable states; dispatch choice and draining; one run at a time |
| `WorkEffects`, `CompanyEffects`, `ReportEffects`, `PromisesKept` | what every operation does, field by field against its arguments, and when it is accepted; what a caller of createWork may rely on over every run |
| `ScheduleControl`, `LeftoverRuns`, `OverlappingExecutors` | who stops a schedule; which steps leave a queued run behind its task; blocking piece by piece, with executors that overlap |
| `WorkStatements`, `WorkRepository`, `WorkService` | the SQL statements, the write-behind repository and the service as classes, proved against the specification |
| `CompanyDatabase`, `WorkDispatchLease`, `WorkDispatch`, `WorkCancellation`, `WorkBlockedRecovery`, `WorkRecoveryConversation`, `CompanyControlPlane`, `TasksRunActions` | the other services, as classes over one shared database |
| `FinishWorkTurn`, `ProviderTurns`, `Interference`, `WorkExecution` | the result parser, what the provider's turns come to, what others may do while an executor waits, and the executor |
| `CodeUnits`, `ToolGuardGlob`, `ContextSummary`, `ContextSlimming` | the two compact cores |

The operations are specified as functions from tables to tables. The classes are the imperative code: each
method follows its original step by step and its postcondition says that the database ends up exactly as the
specification says. Everything else is proved about the specification, so it holds of the classes. The theorems
about reachable states use of them only the company's invariant `Inv`, which every method of every class keeps too,
the executor's with all its interruptions included.

## Assumptions

- Timestamps are integers. The repository compares fixed-format ISO texts, which sort as times do (section 5.1 of RFC 3339).
- An id is the place of a record in the order of (creation time, id), so the latest record and the order of
  events are those of the ids. Ids are fresh.
- A recurring schedule's interval is an integer; the code also accepts fractions below one millisecond, which
  do not move the slot.
- `resolveEmployee(id)` returns an employee with that id or nothing; the member directory is a set of enabled ids.
- Callers name an actor when they create a due run or move or cancel a run, and an executor is started for a
  queued run only by the dispatch runner, which has taken the run's lease by then (`Proper`, `MayStart`). What
  happens without an actor is stated and proved (`LogsKept`).
- Operations are atomic, except those of the executor: at every wait inside it, others may do anything but
  move the executor's own run, or dispatch before it has started. "Undisturbed" below means that nobody does
  (`Quiet`) and that no broken channel quotes the executor's own words for a missing report (`ChannelsAreSilent`).
- Texts that the code generates around ids are fixed texts here; event metadata, time zones, cron and
  recurrence rules, which nothing reads back, are not modelled.
- A string has at most 2^53 - 1 code units (section 6.1.4 of ECMA-262); `Math.floor(n * 0.65)` is the integer
  part of 65n/100. `toLocaleString` groups digits by three, with commas.

## What the proofs found

- **A provider error without a message leaves a run in progress for good.** Failing the run needs a reason and
  the error has none. With two turns or more this is the only way that `startWorkRunExecution` leaves a run in
  progress, whatever others do meanwhile (`StartWorkRunExecution`, `BlankErrorLeavesTheRunInProgress`).
- **A budget of one turn, the default, adds one more way**: a first turn that reports progress, itself or in its
  repair (`SmallBudgetLeavesTheRunInProgress`). For every budget, an undisturbed execution leaves its run in
  progress exactly if its last call throws an error without message or, with one turn, reports progress
  (`LeftInProgressExactly`).
- **A recovery reply need not leave the run in a stable state**, although docs/product/work-system.md:66
  requires it: with a budget of one turn it always does. With a larger one an undisturbed recovery leaves the run
  in progress exactly if its first turn, repaired or not, reports progress, and the turns after it go on doing so
  until one of those granted throws or does not report properly: later turns get no repair, and nothing fails or
  blocks the run (`StuckExactly`, `RecoveryLeavesTheRunInProgress`). Its request stays open, but every later reply
  is refused because the run is not blocked (`HandleParticipantMessage`). The model follows the code.
- **A blank actor leaves half an operation behind**: `moveWorkRun` and `createDueWorkRun` check it after their
  first statements are queued, and closing the repository still runs those (`BlankActorLeavesAHalfMove`, `BlankActorLeavesAHalfFiredRun`, `MoveRunKeepsLogs`, `CreateDueRunKeepsLogs`).
- **One owner who is not available stops a tick**: exactly the due schedules before that owner's fire, and all
  after it wait, whoever owns them (`TickDueSchedules`, `AwayOwnerHoldsBack`, `HoldingBackHappens`).
- **Slimming can double a message**: when a result is stored but the report of it fails, the catch block sends
  the original after its digest (`SlimmingProjectsExactly`).
- **Truncating to fewer than 229 characters lengthens the text**, because `slice(-0)` is the whole text
  (`TruncationFitsExactlyFrom229`). Previews use the same expression, and shorten every text exactly because a policy
  always has a tail of one character or more (packages/pi-context-harness/src/policy.ts:33,
  `PreviewShortensExactlyWithATail`).
- **One run at a time per employee is not kept**: every operation keeps it but the resumption of a blocked run, which
  loses it exactly if its assignee is busy with another (`ExclusivityIsLostExactly`, `ExclusivityIsLost`).
- **A task can be over while a run of it still waits, and the dispatcher sends that run out**: canceling a schedule
  cancels its task but none of its runs, and so does, once maxRuns is reached, the completion or cancellation of
  another run of it. No other step leaves such a run (`LeftoversAreMadeExactly`, `ALeftoverIsDispatched`).
- **A channel that fails late fails a run that has been resumed**: if a listener fails once the request is stored
  and the requester's answer is quicker, the first executor gives up the run under the second one. The company's
  invariant survives this and every other overlap (`AResumedRunIsGivenUp`, `EveryInterleavingIsInOrder`).

## Model

| member | source | states |
|---|---|---|
| Prelude.NormalizedCutsSpaceOnly | src/work/work-service.ts:157-167 | What is left of a text that is not blank is all of it but the white space at its ends |
| CompanyKept.EveryReachableStateIsInOrder | src/work/work-service.ts:267-1119 | Main theorem: every promise about tables, leases, requests and blocked runs holds after any sequence of proper operations |
| CompanyKept.StepKeepsCompany | src/work/work-service.ts:294-1096 | Each of the sixteen operations keeps the invariant, even while executors are in the middle of blocking some runs |
| CompanyTheorems.ReachableIsInOrder | src/work/work-service.ts:294-1096 | Every state reached from a new company satisfies the invariant |
| CompanyHistory.EveryRunGoesOn | src/work/work-service.ts:137-151 | Over any run of the system ended runs never change, identities and revisions stay, counters and task revisions only grow, dead schedules stay dead, lease statuses only move forward |
| CompanyTheorems.ReachableGoesOn | src/work/work-service.ts:137-151 | The same for every continuation of every reachable state, which is itself reachable |
| CompanyTheorems.OneShotTasksAreSafe | src/work/work-service.ts:235-254 | Immediate and scheduled-once tasks: at most one open run, every run but the last failed, completed means the last run is done, canceled or archived means all runs ended |
| CompanyTheorems.OneShotTasksStayOver | src/work/work-service.ts:1008-1054 | A one-shot task that is not active never becomes active again and never gains a run |
| CompanyTheorems.RecurringSlotsAreFilledInOrder | src/work/work-service.ts:256-265 | The i-th fired run is for start + i * interval, each slot once; the next slot follows; never more runs than maxRuns, retries or not |
| CompanyTheorems.OnceFiresAtMostOnce | src/work/work-service.ts:502-531 | A scheduled-once schedule fires at most once, in its slot |
| CompanyTheorems.EnabledSchedulesHaveASlot | src/runtime/company-config/postgres-schema.ts:1014-1019 | An enabled schedule always has a next slot, and no run stands for that slot yet, so the reuse branch is never taken |
| CompanyTheorems.RunCountIsConserved | src/work/postgres-work-repository.ts:650-665 | A schedule's runCount is the number of its task's runs, retries included |
| WorkInvariants.RepairChangesNothing | src/work/work-service.ts:1006 | The Math.max repair of the counter in moveWorkRun never changes it |
| WorkInvariants.OneShotTestIsRight | src/work/work-service.ts:235-244 | The service's test for one-shot work, by schedule kind or creation time, holds exactly of tasks without a recurring schedule |
| WorkInvariants.SlotIsFree | src/work/work-service.ts:475-488 | At a due slot of an enabled schedule no run is found to be reused |
| CompanyTheorems.InactiveTasksGetNoWork | src/work/work-service.ts:456-473 | A task that is not active has no schedule that could fire, and a due run asked for anyway is refused with nothing changed |
| CompanyTheorems.LogsLeadToTheirStatus | src/work/work-service.ts:137-144 | A run's status events form a path of allowed transitions from its creation to its status; it leaves the queue at most once; reasons, times and summaries are there exactly when the status wants them |
| CompanyTheorems.ReplayReadsThePath | src/work/work-service.ts:195-204 | Folding a log yields a status exactly when its status events are an allowed path that ends in it |
| CompanyTheorems.RevisionsAreTheHistory | src/work/work-service.ts:664-751 | Revisions are numbered 1 to the task's revision, once each; the last is its text, neighbours differ, and every run follows one of them |
| CompanyTheorems.LeaseProtocolHolds | src/work/work-dispatch-lease.ts:102-227 | At most one lease per run is pending, it is the latest, and its run is still queued; a retry lease answers an earlier failed lease of the same run |
| CompanyTheorems.BlockedRunsAreReachable | src/work/work-blocked-recovery-conversation-service.ts:79-175 | Every blocked run has an open request to somebody other than its assignee, in a conversation of its own |
| CompanyTheorems.TaskCancellationIsComplete | src/work/work-cancellation-service.ts:52-61 | After canceling a task its schedules are dead, its runs ended, done and failed runs untouched, and no canceled run has a live latest lease or an open request |
| CompanyTheorems.TaskCancellationIsFramed | src/work/work-cancellation-service.ts:52-103 | Tasks, schedules, runs, events, leases and requests of other tasks are unchanged, and every new event is about a run of the task |
| CompanyTheorems.RunCancellationIsComplete | src/work/work-cancellation-service.ts:63-82 | Canceling a run succeeds exactly if it is there and not done or failed, with a reason unless it is canceled already; then it is canceled, its latest lease neither pending nor acknowledged, and no request of it open; a refusal changes nothing |
| CompanyTheorems.RunCancellationIsFramed | src/work/work-cancellation-service.ts:63-103 | Every other run, the leases and requests of other runs, and the tasks and schedules of other tasks are unchanged, and every new event is about the run |
| ScheduleControl.OnlyAskingStops | src/work/work-service.ts:753-794 | In one step a schedule becomes paused or canceled only if the step asks for that schedule, or for canceling its task |
| ScheduleControl.OutcomesStopNothing | src/work/work-service.ts:1000-1054 | No outcome of a run pauses or cancels a schedule, or changes one that is paused or canceled into the other |
| ScheduleControl.StoppedSchedulesWereAskedTo | docs/product/work-system.md:78 | In every continuation of a state in order, a schedule that is paused or canceled was so before or was asked to on the way |
| ScheduleControl.EveryStopWasAskedFor | docs/product/work-system.md:78 | Every paused or canceled schedule of a reachable state was asked to be, by pausing or canceling it or by canceling its task |
| LeftoverRuns.LeftoversAreMadeExactly | src/work/work-service.ts:776-788 | A queued run comes to outlive its task exactly by canceling the task's live schedule, or by completing or canceling another of its runs once maxRuns is reached |
| LeftoverRuns.LeftoversWereLeftOver | src/work/work-service.ts:753-1056 | So in every continuation of a state in order, a queued run whose task is over was so before or was left over by such a step |
| LeftoverRuns.ALeftoverIsDispatched | src/work/work-dispatcher.ts:56-90 | A reachable state in which a run of a canceled task is in progress, dispatched after the cancellation |
| CompanyTheorems.RestoreUndoesArchive | src/work/work-service.ts:870-949 | Archiving and restoring gives back the exact status and everything but metadata and update time |
| DispatchOrder.TheChoiceIsTheOldest | src/work/work-dispatcher.ts:47-90 | The choice is the oldest explicit retry, or else the oldest eligible run, of an idle assignee; nothing is chosen only when nothing is eligible |
| DispatchOrder.DispatchDrains | src/work/work-dispatch-runner.ts:22-62 | A dispatch takes exactly its run out of the waiting ones, employee found or not, so draining ends |
| DispatchOrder.DispatchTouchesOne | src/work/work-dispatch-runner.ts:22-62 | A dispatch leaves every run but its choice, and that run's latest lease, as they were |
| Exclusivity.ExclusivityIsLostExactly | src/work/work-execution-service.ts:545-557 | One run at a time per assignee survives every operation but one, and is lost exactly by that: resuming a blocked run whose assignee has another in progress |
| Exclusivity.ExclusivityIsKeptWithout | src/work/work-dispatcher.ts:47-53 | Every run of the system without such a step keeps to one run in progress per assignee |
| Exclusivity.ExclusivityIsLost | src/work/work-execution-service.ts:545-557 | A state with two runs of one assignee in progress is reached: two orders, dispatch, block, dispatch, resume |
| LogsKept.MoveRunKeepsLogs | src/work/work-service.ts:984-998 | moveWorkRun keeps logs and statuses in agreement exactly when it names an actor, is refused, or changes no status |
| LogsKept.CreateDueRunKeepsLogs | src/work/work-service.ts:490-514 | A due run is logged exactly when the call names an actor, or when a guard before it queues no run |
| LogsKept.RecordEventKeepsLogs | src/work/work-service.ts:1073-1096 | Recording an event keeps the agreement exactly when its run is missing, its actor, type or summary is blank, its type stands for no status, or it repeats blocked on a blocked run |
| RunLog.LogsOkRemark | src/work/work-service.ts:1082-1090 | One more event keeps the agreement exactly when it is a remark or repeats blocked |
| BooksKept.CreateWorkKeepsBooks | src/work/work-service.ts:294-394 | createWork keeps all promises about the tables |
| BooksKept.CreateDueRunKeepsBooks | src/work/work-service.ts:456-537 | createDueWorkRun keeps them, for a named actor |
| BooksKept.RetryRunKeepsBooks | src/work/work-service.ts:589-662 | retryWorkRun keeps them |
| BooksKept.ReviseTaskKeepsBooks | src/work/work-service.ts:664-751 | reviseWorkTask keeps them |
| BooksKept.MoveScheduleKeepsBooks | src/work/work-service.ts:753-794 | moveWorkSchedule keeps them |
| BooksKept.CancelTaskKeepsBooks | src/work/work-service.ts:796-868 | cancelWorkTask keeps them |
| BooksKept.MoveRunKeepsBooks | src/work/work-service.ts:951-1071 | moveWorkRun keeps them, for a named actor |
| BooksKept.ArchiveAndRestoreKeepBooks | src/work/work-service.ts:870-949 | Archiving and restoring keep them |
| CompanyKept.DispatchKeepsCompany | src/work/work-dispatch-runner.ts:22-62 | Leasing, acknowledging and starting a run keep the lease protocol |
| CompanyKept.BlockRunKeepsCompany | src/work/work-execution-service.ts:604-634 | Blocking a run with its channel, or failing it when the channel fails, keeps every blocked run reachable |
| OverlappingExecutors.EveryInterleavingIsInOrder | src/work/work-execution-service.ts:604-627 | With blocking cut into its move, its opening and its giving up, and anything proper in between, a second executor of the same run included, every promise about tables, leases and requests holds after every piece; blocked runs are reachable but for those whose channel is still to be opened |
| OverlappingExecutors.PiecesAreTheOperation | src/work/work-execution-service.ts:604-627 | Uninterrupted, the pieces are the company's atomic operation |
| OverlappingExecutors.GivingUpEndsTheRun | src/work/work-execution-service.ts:616-626 | Giving up fails the run whatever others have made of it, unless it has ended, and then leaves it as it is |
| OverlappingExecutors.AResumedRunIsGivenUp | src/work/work-blocked-recovery-conversation-service.ts:106-114 | Concrete interleaving, for every run in progress without an open request: its request is stored, the run resumed, and then failed because a listener failed |
| CompanyKept.CancelRunKeepsCompany | src/work/work-cancellation-service.ts:63-82 | Canceling one run and clearing what hangs on it keeps the invariant |
| WorkStatements.UpdateRunMirrors | src/work/postgres-work-repository.ts:557-586 | The partial UPDATE of a run leaves what memory shows exactly when the run exists and its task, revision, trigger, slot and creation time are unchanged |
| WorkStatements.UpdateTaskMirrors | src/work/postgres-work-repository.ts:350-381 | The UPDATE of a task agrees with memory exactly when the task exists with the same origin and a positive revision |
| WorkStatements.UpdateScheduleMirrors | src/work/postgres-work-repository.ts:438-473 | The UPDATE of a schedule agrees exactly when it exists with the same task and creation time and passes the check constraint |
| WorkStatements.CountRunMirrors | src/work/postgres-work-repository.ts:650-665 | The relative run_count + 1 agrees with memory exactly when the task has no schedule but the one memory found |
| WorkStatements.InsertRevisionMirrors | src/work/postgres-work-repository.ts:273-293 | ON CONFLICT DO NOTHING agrees exactly when number and key are new, or the row is there already |
| WorkStatements.InsertRunMirrors | src/work/postgres-work-repository.ts:505-551 | The upsert of a run agrees exactly when its task exists and a known id keeps its creation time |
| WorkStatements.ReviseMirrors | src/work/postgres-work-repository.ts:383-430 | The single statement of a revision writes exactly what memory wrote to three arrays if and only if task, revision and run are what its columns say, key and number are new, and task and run exist |
| WorkStatements.TwoSchedulesDiverge | src/work/postgres-work-repository.ts:650-665 | With two schedules of one task, table and memory part |
| WorkStatements.RevisionByUpdateDiverges | src/work/postgres-work-repository.ts:557-586 | A taskRevision changed through updateWorkRun stays in memory only |
| WorkRepository.UpsertById | src/work/postgres-work-repository.ts:150-157 | Editing the array in place updates the map that find reads, and keeps ids unique |
| WorkRepository.Repository.CreateWorkTask | src/work/postgres-work-repository.ts:212-295 | Arrays gain the task and its initial revision; the queue still leads to what the arrays show exactly when the revision's obligation holds |
| WorkRepository.Repository.CreateWorkSchedule | src/work/postgres-work-repository.ts:297-340 | Array, queue and the exact condition of their agreement |
| WorkRepository.Repository.UpdateWorkTask | src/work/postgres-work-repository.ts:350-381 | Array, queue and the exact condition of their agreement |
| WorkRepository.Repository.UpdateWorkSchedule | src/work/postgres-work-repository.ts:438-473 | Array, queue and the exact condition of their agreement |
| WorkRepository.Repository.CreateWorkRun | src/work/postgres-work-repository.ts:505-551 | The run joins, one schedule is counted, and two statements keep the agreement exactly under the run's obligation |
| WorkRepository.Repository.UpdateWorkRun | src/work/postgres-work-repository.ts:557-586 | Array, queue and the exact condition of their agreement |
| WorkRepository.Repository.ReviseWorkTask | src/work/postgres-work-repository.ts:383-430 | Three arrays and one statement, and the exact condition of their agreement |
| WorkRepository.Repository.AppendWorkRunEvent | src/work/postgres-work-repository.ts:588-614 | Array, queue and the exact condition of their agreement |
| WorkRepository.Repository.IncrementScheduleRunCount | src/work/postgres-work-repository.ts:650-665 | Moves the first schedule of the task in memory; agreement exactly when it has no other |
| WorkRepository.Repository.ListWorkRuns | src/work/postgres-work-repository.ts:497-503 | The task's runs, all of them, in order of creation |
| WorkRepository.Repository.Flush | src/work/postgres-work-repository.ts:622-648 | The queued statements run in order, up to the first that the database rejects |
| WorkEffects.CreateWorkIsAcceptedExactly | src/work/work-service.ts:194-208 | createWork is accepted exactly if the trigger has the time, interval and limit it needs, the five required texts are not blank and the trimmed owner is an enabled member; a refusal changes nothing |
| WorkEffects.CreateWorkMeans | src/work/work-service.ts:313-383 | One new active task with the trimmed texts that were asked for and its first revision; scheduled work has one schedule with that start, interval and limit and no run, immediate work one queued run of the owner and no schedule; nothing else changes |
| PromisesKept.ThePlanStays | src/work/work-service.ts:333-354 | In every continuation the task still has the schedule that was asked for, with its kind, start, interval and limit |
| PromisesKept.RecurringWorkGoesAsAsked | src/work/work-service.ts:330-354 | In every continuation the runs that recurring work has fired are for the start that was asked for and the intervals after it, in order, and never more than maxRuns |
| PromisesKept.OnceWorkGoesAsAsked | src/work/work-service.ts:330-354 | In every continuation work for one time has fired once at most, for that time |
| WorkEffects.CreateDueRunIsAcceptedExactly | src/work/work-service.ts:456-473 | A due run is created exactly for an enabled schedule whose slot has come, whose task is there and whose owner is enabled, by a named actor |
| WorkEffects.CreateDueRunMeans | src/work/work-service.ts:490-525 | One queued run of the task's owner and present revision for the slot that was due; the schedule counts it, and is completed by its last run or waits one interval; nothing else changes |
| WorkEffects.FiredRunIsReused | src/work/work-service.ts:474-486 | Where the slot has a fired run already, whatever else the tables hold, the oldest one comes back and nothing is changed |
| WorkEffects.BlankActorLeavesAHalfFiredRun | src/work/work-service.ts:488-508 | Without an actor the call fails with the run queued and counted, nothing logged, and the schedule still due |
| WorkEffects.RetryIsAcceptedExactly | src/work/work-service.ts:589-617 | A retry is accepted exactly of a failed run of an active task without an open run, by a named actor, for an enabled member |
| WorkEffects.RetryMeans | src/work/work-service.ts:615-655 | One new queued run of the named member, or else of the failed run's, for the failed run's slot and by the present revision; the failed run stays, each of the two has one more event, and the schedule counts the retry |
| WorkEffects.ReviseIsAcceptedExactly | src/work/work-service.ts:664-695 | A revision is accepted exactly of an active task, with actor and reason, from an open run of the task if one is named, and if the given texts are not blank and change something |
| WorkEffects.ReviseMeans | src/work/work-service.ts:686-733 | Each text is the given one, trimmed, or else the old one; number, author, reason and source of the revision are recorded; only the named run moves on to it, and nothing else changes |
| WorkEffects.MoveScheduleIsAcceptedExactly | src/work/work-service.ts:753-765 | A live schedule can be enabled, paused and canceled, a canceled one canceled again, and a dead one nothing else |
| WorkEffects.MoveScheduleMeans | src/work/work-service.ts:767-788 | Pausing an enabled schedule, enabling a paused one and canceling a live one store that status with its reason and keep the slot; canceling cancels the task; asking for the status a schedule has changes nothing |
| WorkEffects.CancelTaskIsAcceptedExactly | src/work/work-service.ts:796-810 | A task is canceled exactly with a reason, by a named actor, and unless it is archived |
| WorkEffects.CancelTaskMeans | src/work/work-service.ts:812-853 | Task, live schedules and open runs are canceled for the trimmed reason, each open run has exactly one more event by the actor, and all else stays |
| WorkEffects.ArchiveIsAcceptedExactly | src/work/work-service.ts:870-949 | Archiving takes a named actor and a task that is not active, restoring a named actor and a task |
| WorkEffects.ArchiveMeans | src/work/work-service.ts:891-903 | The metadata says who archived the task, why and from which status, and keeps everything else |
| WorkEffects.RestoreMeans | src/work/work-service.ts:932-937 | The task gets the status that its metadata names, or else is canceled |
| WorkEffects.MoveRunIsAcceptedExactly | src/work/work-service.ts:961-971 | A move is accepted exactly along the transitions of the table, with the reason or the evidence it needs |
| WorkEffects.MoveRunMeans | src/work/work-service.ts:972-1054 | The run has the new status with its times and the texts that belong to it, one event says so, and a terminal run settles task and schedule: closed if the task is one-shot or its maxRuns reached, and only touched otherwise |
| WorkEffects.BlankActorLeavesAHalfMove | src/work/work-service.ts:972-996 | Without an actor the call fails with the run moved, nothing logged, and task and schedule not settled |
| WorkEffects.RecordEventMeans | src/work/work-service.ts:1073-1090 | Exactly with three texts for a known run, one event with those texts trimmed joins |
| WorkService.WorkService.CreateWork | src/work/work-service.ts:294-394 | The database ends exactly as specified (`CreateWorkMeans`): no queued statement is rejected or writes anything else |
| WorkService.WorkService.CreateDueWorkRun | src/work/work-service.ts:456-537 | The database ends exactly as specified (`CreateDueRunMeans`), with the run, the counter, the next slot and the log; a blank actor leaves the half of it that was queued before the check |
| WorkService.WorkService.RetryWorkRun | src/work/work-service.ts:589-662 | The database ends exactly as specified (`RetryMeans`): a new run of the failed one's task, counted and logged on both, or the first guard's error and no change |
| WorkService.WorkService.ReviseWorkTask | src/work/work-service.ts:664-751 | The database ends exactly as specified (`ReviseMeans`): task, revision and source run together, or the first guard's error and no change |
| WorkService.WorkService.MoveWorkSchedule | src/work/work-service.ts:753-794 | The database ends exactly as specified (`MoveScheduleMeans`), with the task canceled together with its schedule |
| WorkService.WorkService.CancelWorkTask | src/work/work-service.ts:796-868 | The database ends exactly as specified (`CancelTaskMeans`): both loops together cancel exactly the live schedules and open runs |
| WorkService.WorkService.ArchiveWorkTask | src/work/work-service.ts:870-914 | The database ends exactly as specified (`ArchiveMeans`), with the earlier status kept in the metadata |
| WorkService.WorkService.RestoreWorkTask | src/work/work-service.ts:916-949 | The database ends exactly as specified (`RestoreMeans`), with the status that the metadata kept |
| WorkService.WorkService.MoveWorkRun | src/work/work-service.ts:951-1071 | The database ends exactly as specified (`MoveRunMeans`), including what a terminal run does to task and schedule |
| WorkService.WorkService.RecordWorkRunEvent | src/work/work-service.ts:1073-1096 | The database ends exactly as specified (`RecordEventMeans`): one more event, or the error and no change |
| WorkDispatchLease.LeaseRepository.UpdateLease | src/work/postgres-work-dispatch-lease-repository.ts:176-216 | The partial UPDATE of a lease agrees with memory exactly when the lease keeps its identity |
| WorkDispatchLease.LeaseRepository.GetLatestLeaseForWorkRun | src/work/postgres-work-dispatch-lease-repository.ts:158-162 | The lease of the run that no other comes after, or nothing exactly when there is none |
| WorkDispatchLease.WorkDispatchLeaseService.CreatePendingLease | src/work/work-dispatch-lease.ts:102-134 | A pending lease joins unless the latest one is pending |
| WorkDispatchLease.WorkDispatchLeaseService.AcknowledgeWorkRunStart | src/work/work-dispatch-lease.ts:136-156 | Only the latest, pending lease of that assignee is taken |
| WorkDispatchLease.WorkDispatchLeaseService.MarkExpiredPendingLeasesFailed | src/work/work-dispatch-lease.ts:158-181 | Every pending lease whose time has come fails, and no other changes |
| WorkDispatchLease.WorkDispatchLeaseService.FailPendingLease | src/work/work-dispatch-lease.ts:183-204 | Only the latest, pending lease fails |
| WorkDispatchLease.WorkDispatchLeaseService.CancelLatestLease | src/work/work-dispatch-lease.ts:206-227 | Only the latest lease is canceled, where it is pending or acknowledged |
| WorkDispatch.WorkDispatcher.IsAssigneeIdle | src/work/work-dispatcher.ts:47-53 | True exactly when no run of the member is in progress |
| WorkDispatch.WorkDispatcher.FindNextDispatchCandidate | src/work/work-dispatcher.ts:55-90 | The loop finds the choice, with its retry lease, or nothing when no run is eligible |
| WorkDispatch.WorkDispatcher.DispatchNext | src/work/work-dispatcher.ts:92-118 | The chosen run is leased under its explicit retry or a new lease |
| WorkDispatch.ChoiceIsUnique | src/work/work-dispatcher.ts:89 | No two runs are both the choice |
| WorkDispatch.WorkDispatchRunner.DispatchNextToWorkRunSession | src/work/work-dispatch-runner.ts:22-62 | Lease, acknowledge, start, in this order; a missing employee fails the lease; the invariant is kept and an execution of two turns or more settles |
| WorkCancellation.WorkCancellationService.CleanupRuns | src/work/work-cancellation-service.ts:84-103 | Run by run, the loops clear exactly the latest live leases and open requests of the runs |
| WorkCancellation.WorkCancellationService.CancelWorkTask | src/work/work-cancellation-service.ts:52-61 | Task, runs, leases and requests end as specified |
| WorkCancellation.WorkCancellationService.CancelWorkRun | src/work/work-cancellation-service.ts:63-82 | Done and failed runs are refused, a canceled one is cleared again, any other is canceled and cleared |
| WorkBlockedRecovery.BlockedRecovery.OpenRecoveryForBlockedRun | src/work/work-blocked-recovery-conversation-service.ts:79-175 | An open request is left alone, a closed one reopened, a first one created, or the failure reported with what it leaves |
| WorkBlockedRecovery.RecoveryRequests.GetOpenByConversationId | src/work/work-blocked-recovery-request.ts:206-213 | An open request of the conversation, or nothing exactly when there is none |
| CompanyEffects.CallersOweExactly | src/work/work-execution-service.ts:304-346 | What the proper operations ask of their callers, in full: a named actor for due runs, cancellations of runs and executors' moves, and of an executor that it has started the run |
| CompanyEffects.NextCandidateMeans | src/work/work-dispatcher.ts:31-90 | The run that is chosen is the oldest retried one of those that may go out, or else the oldest of them: queued, with an idle assignee and no other pending or failed latest lease; none is chosen exactly if none may go out |
| CompanyEffects.DispatchMeans | src/work/work-dispatch-runner.ts:25-62 | The chosen run goes out under its retry lease or a new one, taken and started; if its assignee is not found the lease fails and the run stays queued; nothing else changes |
| CompanyEffects.OnlyTheLatestLeaseMoves | src/work/work-dispatch-lease.ts:102-204 | Only a run's latest lease is taken or given up, only while it is pending, and taken only by its assignee; a new one is refused while it is pending |
| CompanyEffects.RetryDispatchMeans | src/work/tasks-run-actions.ts:94-108 | A dispatch is retried exactly for a queued run whose latest lease has failed: one new pending lease of its assignee answers that one |
| CompanyEffects.ExpireLeasesMeans | src/work/work-dispatch-lease.ts:158-181 | Exactly the pending leases whose time has come fail, for the fixed reason |
| CompanyEffects.CancelWorkTaskMeans | src/work/work-cancellation-service.ts:52-103 | With the task, the latest live leases and the open requests of its open and canceled runs are canceled, for the given reason; all others stay |
| CompanyEffects.CancelWorkRunMeans | src/work/work-cancellation-service.ts:63-103 | The same for one run, which is moved unless it is canceled already |
| CompanyEffects.OpenRecoveryMeans | src/work/work-blocked-recovery-conversation-service.ts:79-172 | A channel opens exactly if it is open already, or works and has another member to ask; the request is kept, opened again, or new and between assignee and requester |
| CompanyEffects.BlockRunMeans | src/work/work-execution-service.ts:604-627 | A blocked run keeps the trimmed reason and is logged with its summary; it stays blocked exactly if its channel opens, and otherwise fails for what the channel reported |
| CompanyEffects.SettleRequestMeans | src/work/work-blocked-recovery-conversation-service.ts:228-232 | The request of a blocked run stays as it is, of a canceled run is canceled, and of any other is resolved, now |
| WorkRecoveryConversation.WorkBlockedRecoveryConversationService.HandleParticipantMessage | src/work/work-blocked-recovery-conversation-service.ts:177-239 | Which words are ignored, refused or heard, exactly: only the requester resumes a run, and only a blocked one, and nothing else changes anything. After a recovery without error the run is not in progress and its request is open exactly if it is blocked again, and otherwise closed now: canceled with a canceled run, resolved with any other; undisturbed, a provider that gets stuck leaves it in progress with the request open, and no other does |
| CompanyControlPlane.CompanyControlPlane.ListDueWorkSchedules | src/work/work-service.ts:437-454 | The first of the due schedules in order of slot and id, up to the limit |
| CompanyControlPlane.CompanyControlPlane.TickDueSchedules | src/work/company-control-plane.ts:69-110 | Exactly the listed schedules before the first whose owner is not available fire, each for a run of its own in its owner's queue, and no run is reused; there is an error exactly if such an owner is listed; all else is as it was |
| CompanyControlPlane.CompanyControlPlane.DispatchNext | src/work/company-control-plane.ts:112-169 | Exactly the expired leases are given up, and from there: nothing without a candidate, a failed lease without its employee, and otherwise an execution that settles as the executor promises |
| CompanyControlPlane.CompanyControlPlane.RunOnce | src/work/company-control-plane.ts:171-190 | The tick as above, and then, exactly if it was not stopped, the dispatch from the state it left |
| CompanyControlPlane.AwayOwnerHoldsBack | src/work/company-control-plane.ts:78-83 | A due schedule whose owner is there does not fire while one before it has an owner who is not |
| CompanyControlPlane.HoldingBackHappens | src/work/work-service.ts:474-489 | Concrete input: two scheduled works, the owner of the earlier one away; the state is reached |
| TasksRunActions.TasksRunActionService.ExecuteTasksRunAction | src/work/tasks-run-actions.ts:73-158 | An action that is not offered changes nothing; an offered one does exactly its operation |
| TasksRunActions.OffersAreAccepted | src/work/tasks-view-model.ts:280-303 | What the page offers is what the services accept: a dispatch is retried exactly where that is offered, an open run canceled exactly where that is, and only failed runs are offered for retry |
| FinishWorkTurn.SuccessfulFinalToolArgumentCalls | src/work/finish-work-turn-result.ts:34-53 | The arguments of exactly the succeeded calls of the tool that carry an object, in order |
| FinishWorkTurn.WorkRunResultFromProcessEvents | src/work/finish-work-turn-result.ts:22-32 | The result of the one call, or the error for none, several, or an invalid one |
| FinishWorkTurn.ParseIsAcceptedExactly | src/work/finish-work-turn-result.ts:22-106 | A turn is accepted exactly with one call that names one of the five statuses and has what that status needs; each field of the result is the argument of its name, trimmed |
| FinishWorkTurn.TextsMean | src/work/finish-work-turn-result.ts:98-106 | Of a list of evidence the texts that are not blank are kept, trimmed and in order |
| FinishWorkTurn.ParsedIsWellFormed | src/work/finish-work-turn-result.ts:55-77 | Parsed texts are trimmed and not empty, and the status has what it needs |
| FinishWorkTurn.ReportsAreReadBack | src/work/finish-work-turn-result.ts:55-106 | Round trip: reporting a well-formed result and parsing the report gives it back |
| FinishWorkTurn.ParsedResultsAlwaysApply | src/work/work-service.ts:961-972 | Whatever the parser accepts passes all checks of moveWorkRun on a blocked run, and every move on one in progress |
| Interference.InterferenceOnlyCancels | src/work/work-execution-service.ts:494-496 | Whatever others do during a wait, dispatches included once the run has started, the run is at most canceled, no lease is added to it, and the invariant is kept |
| WorkExecution.WorkExecutionService.StartWorkRunExecution | src/work/work-execution-service.ts:58-187 | With two turns or more a queued run is left in progress only by a provider error without message, whatever others do meanwhile; at most maxTurns + 1 provider calls; ended runs, canceled ones among them, are never overwritten. Undisturbed and for every maxTurns: which call is the last, what it makes of run and result, and the exact condition on the provider for being left in progress |
| WorkExecution.WorkExecutionService.ContinueWorkRunExecution | src/work/work-execution-service.ts:189-310 | Never returns normally with the run in progress, for any maxTurns; with one turn never leaves it so at all; a canceled run stays canceled without an error. Undisturbed: which call is the last, what it makes of run and result, and the exact condition on the provider for being left in progress |
| WorkExecution.WorkExecutionService.AutoContinueIfNeeded | src/work/work-execution-service.ts:348-419 | The loop uses at most maxTurns - 1 provider calls and returns normally only with the run out of progress; undisturbed, it ends with the first call that does not report progress, or blocks the run after the last |
| WorkExecution.WorkExecutionService.ApplyFinalToolResultWithRepair | src/work/work-execution-service.ts:461-492 | Undisturbed, a turn gets a second one exactly when it forgot to report, and that one then counts in its place, whatever it comes to; an error leaves the run out of progress, has a message, or is the provider's own |
| WorkExecution.WorkExecutionService.ApplyWorkRunResult | src/work/work-execution-service.ts:532-602 | A report applied without error leaves the run as reported or canceled by others; undisturbed, the run keeps the report's own texts and its log says so (`ReportIsApplied`), as by the company's own operation for that report |
| ReportEffects.ReportsMean | src/work/work-execution-service.ts:532-602 | Summary or joined evidence become the result, summary or the fixed text the reason of a failure or cancellation, and the blocker message the reason of a block; the new event is the employee's, with the report's summary or the fixed text; progress resumes a blocked run and is a remark on any other |
| ReportEffects.JoiningMeans | src/work/work-execution-service.ts:576 | Evidence is joined by one line feed between neighbours |
| ReportEffects.ErrorsMean | src/work/work-execution-service.ts:329-346 | A run that fails for an error keeps the error's message, and its log quotes it |
| WorkExecution.WorkExecutionService.BlockWorkRun | src/work/work-execution-service.ts:604-627 | Afterwards the run is out of progress, and if blocked then reachable; undisturbed, the three steps are together the company's atomic operation |
| WorkExecution.WorkExecutionService.FailActiveWorkRun | src/work/work-execution-service.ts:329-346 | A message takes the run out of progress, undisturbed to failed with that message kept and quoted; without one it stays, and the error of the refused move comes out; a run that is not in progress is left alone |
| WorkExecution.WorkExecutionService.Respond | src/work/work-execution-service.ts:421-441 | One provider call; of its events those that arrive after a cancellation are dropped and no others |
| WorkExecution.WorkExecutionService.FirstTurn | src/work/work-execution-service.ts:80-142 | Undisturbed, the first turn ends with its own call, or with the repair exactly if it forgot to report, and run and result are as that call says; a canceled run takes no result |
| WorkExecution.WorkExecutionService.Prepare | src/work/work-execution-service.ts:64-76 | A queued run is started once, by its assignee only; undisturbed, nothing else changes |
| WorkExecution.WorkExecutionService.OpenChannel | src/work/work-execution-service.ts:613-627 | The blocked run keeps an open channel or fails; undisturbed, exactly one of the two as the channel works or not |
| WorkExecution.WorkExecutionService.FailAndRethrow | src/work/work-execution-service.ts:159-176 | What comes of an error: a canceled run swallows it, a run in progress fails with its message, and without one stays in progress under the refused move's error |
| ProviderTurns.OtherErrorsMentionNothing | src/work/work-execution-service.ts:474 | The test by message text recognizes the missing report and none of the parser's other errors |
| ProviderTurns.LeftInProgressExactly | src/work/work-execution-service.ts:329-359 | An undisturbed execution leaves its run in progress exactly if its last call throws an error without message, or reports progress with no further turn granted |
| ProviderTurns.StuckExactly | docs/product/work-system.md:66 | An undisturbed recovery leaves its run in progress exactly if its first turn, repaired or not, reports progress, and the following go on doing so until one of those granted throws or does not report properly |
| ProviderTurns.SecondOmissionEnds | docs/product/work-system.md:72 | A second missing report ends the execution after two calls: a started run fails, a recovered one stays blocked |
| ProviderTurns.OnlyProgressBlocks | src/work/work-execution-service.ts:362-418 | If every turn granted reports progress, all are taken, and the run is blocked, or fails for want of a channel |
| WorkExecution.BlankErrorLeavesTheRunInProgress | src/work/work-execution-service.ts:329-346 | Concrete input, for every budget of two turns or more: a blank provider error with nobody interfering |
| WorkExecution.SmallBudgetLeavesTheRunInProgress | src/work/work-execution-service.ts:356-359 | Concrete input, for every budget below two turns, the default among them: a report of progress |
| WorkExecution.RecoveryLeavesTheRunInProgress | src/work/work-execution-service.ts:288-302 | Concrete input, for every budget of two turns or more: progress, then an error |
| ToolGuardGlob.GlobToRegexSource | packages/pi-tool-guard/src/index.ts:517-534 | The loop emits the source of every part of the glob, in order |
| ToolGuardGlob.EmittedSourceIsRead | packages/pi-tool-guard/src/index.ts:517-534 | The emitted source parses, as one term for every part: escaping is complete and nothing joins up into a quantifier |
| ToolGuardGlob.CompiledGlobMeansTheGlob | packages/pi-tool-guard/src/index.ts:512-515 | For every glob and every value, testing the compiled expression is matching the glob |
| ToolGuardGlob.StarMeansAnyLine | packages/pi-tool-guard/src/index.ts:522-526 | A star matches exactly the prefixes without line terminators |
| ToolGuardGlob.TwoStarsAreOne | packages/pi-tool-guard/src/index.ts:522-524 | Two stars mean what one means |
| ToolGuardGlob.PlainGlobMatchesItself | packages/pi-tool-guard/src/index.ts:529-531 | A glob without wildcards matches exactly its own text, up to case |
| CodeUnits.BlankIsSpace | packages/pi-context-harness/src/message-serialization.ts:57-59 | The trimming of code units and that of texts agree on every character of the basic plane |
| ContextSummary.TruncationFits | packages/pi-context-harness/src/message-serialization.ts:55-60 | From 229 on the truncated text is never longer than asked for |
| ContextSummary.TruncationFitsExactlyFrom229 | packages/pi-context-harness/src/message-serialization.ts:55-60 | The bound holds for all texts exactly when maxChars is at least 229 |
| ContextSummary.TruncationGrowsBelow229 | packages/pi-context-harness/src/message-serialization.ts:57-59 | Below 229 every text that is cut and does not begin with white space grows |
| ContextSummary.SummarizeMessages | packages/pi-context-harness/src/message-serialization.ts:4-11 | The summary is that of the first messages whose joined texts reach maxChars, or of all of them |
| ContextSummary.GatheredIsUnique | packages/pi-context-harness/src/message-serialization.ts:4-11 | There is only one such number of messages |
| ContextSummary.WhatFitsIsKept | packages/pi-context-harness/src/message-serialization.ts:4-11 | A context that fits is summarized without loss |
| ContextSummary.EstimateContextTokens | packages/pi-context-harness/src/token-budget.ts:98-100 | The estimate never exceeds 500,000 tokens, and is exact for contexts of up to 2,000,000 characters |
| ContextSlimming.TransformModelContext | packages/pi-context-harness/src/context-transform.ts:11-70 | The loop's output, for every outcome of stores and reports |
| ContextSlimming.SlimmingProjectsExactly | packages/pi-context-harness/src/context-transform.ts:33-58 | Length, order and all other messages are kept exactly unless a stored result could not be reported |
| ContextSlimming.ResultsAreReplacedExactly | packages/pi-context-harness/src/tool-result-slimmer.ts:24-37 | A result is replaced exactly if its UTF-8 bytes or a quarter of its characters, rounded up, reach their threshold, and it has been stored; its digest keeps call, tool and error flag, notes the reference, hash and sizes, and fits maxDigestChars |
| ContextSlimming.PreviewShortens | packages/pi-context-harness/src/text.ts:32-38 | With a tail no preview is longer than its text, and one that cuts has at most 60 characters besides head and tail |
| ContextSlimming.PreviewShortensExactlyWithATail | packages/pi-context-harness/src/text.ts:35 | Previews shorten every text exactly when the tail has one character or more |
| ContextSlimming.GroupedMeans | packages/pi-context-harness/src/text.ts:36-37 | The omitted count is spelled in digits, with a comma before every three from the end |
| ContextSlimming.OtherMessagesAreKept | packages/pi-context-harness/src/context-transform.ts:22-27 | Messages that are no tool results are never lost, added, changed or moved |
| ContextSlimming.SlimmingTwiceIsSlimmingOnce | packages/pi-context-harness/src/tool-result-slimmer.ts:37-57 | When stores succeed and digests are small, no large result is left and a second pass changes nothing |
| ContextSlimming.DigestIsNotSlimmable | packages/pi-context-harness/src/tool-result-slimmer.ts:37-57 | A digest stays below both thresholds under the stated policy |
| ContextSlimming.BytesOfUnits | packages/pi-context-harness/src/text.ts:28-30 | A text takes one, two or three bytes for each code unit, less two for every pair of surrogates |
| ContextSlimming.AtMostThreeBytesEach | packages/pi-context-harness/src/text.ts:28-30 | UTF-8 takes at most three bytes for a code unit |

## Left out

- Connection pools, promise rejection by the network, and the decoding of rows and JSON: tables are maps and a statement is its column updates and constraints.
- Aliasing inside the repository: arrays are sequences that the methods reassign, so a record handed out does not change under its holder. The code reads no such record after the change but the schedule of `createDueWorkRun`, of which it uses columns that do not change.
- The order of `listWorkSchedules`: a task has at most one schedule, so it is of no consequence.
- Prompts, runtime sessions and their cancellation marks, observers, the operating log and chat messages; a conversation is a fresh id, and whether its channel works is arbitrary.
- Interleavings inside operations other than the executor's, in particular between two services that open the same repository at once.
- Statuses of recurring tasks over time: overlapping runs are allowed, and a late failed run can make a completed task active again. What one move does to the status is part of `MoveRunMeans`.
- What a second executor of the same run means for the outcome of the first: `WorkExecution` states outcomes for one executor among others who may cancel its run. That overlap keeps the company's invariant (`OverlappingExecutors`); the opening of a channel is one piece there.
- View models, HTTP routes, authentication, MCP, web tools, CLI, release scripts and the user interface.
- The rest of the tool guard, which depends on path and policy code.
- The foreign key of a lease on its run: leases are inserted for known runs only, and the invariant keeps them so.
- The harness's compaction, budget breaker and telemetry file: they would add only easy members.
