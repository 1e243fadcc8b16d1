/** What every operation of WorkService does, field by field, in terms of its arguments and of the records it
    finds; and exactly when it is accepted.  What is not named stays as it was. */
module WorkEffects {
  import opened Prelude
  import opened WorkDomain
  import opened WorkOperations
  import opened Listings
  import opened RunLog
  import opened WorkInvariants
  import opened RecordsKept
  import opened SchedulesKept
  import opened OneShotsKept
  import opened BooksKept

  lemma NextIdsAreFresh(w: Tables)
    requires RefsOk(w)
    ensures w.next !in w.tasks && forall i :: i >= w.next ==> i !in w.schedules && i !in w.runs && i !in w.events
  {
  }

  lemma NormalizedTwice(text: Option<string>)
    ensures Normalized(Normalized(text)) == Normalized(text)
  {
    if Normalized(text).Some? { TrimIsIdempotent(text.value); }
  }

  // ---------------------------------------------------------------- createWork

  ghost predicate MayCreate(input: CreateInput, directory: set<string>) {
    && (input.kind in {ScheduledOnce, Recurring} ==> input.scheduledFor.Some?)
    && (input.kind == Recurring ==> input.intervalMs.Some? && input.intervalMs.value > 0)
    && (input.maxRuns.Some? ==> input.kind in {ScheduledOnce, Recurring} && input.maxRuns.value > 0)
    && NonBlank(input.title) && NonBlank(input.createdBy) && NonBlank(input.owner) && NonBlank(input.sourceId)
    && NonBlank(input.acceptanceCriteria) && Normalized(Some(input.owner)).value in directory
  }

  /** The task has the texts that were asked for, trimmed, and is active in its first revision. */
  predicate TaskIsAsAsked(task: Task, input: CreateInput, now: Time) {
    && Some(task.title) == Normalized(Some(input.title)) && task.description == Normalized(input.description)
    && Some(task.owner) == Normalized(Some(input.owner))
    && Some(task.acceptanceCriteria) == Normalized(Some(input.acceptanceCriteria))
    && Some(task.origin.createdBy) == Normalized(Some(input.createdBy)) && task.origin.sourceKind == input.sourceKind
    && Some(task.origin.sourceId) == Normalized(Some(input.sourceId)) && task.origin.topic == Normalized(input.topic)
    && task.origin.requester == Normalized(input.requester)
    && task.status == Active && task.revision == 1 && task.metadata == input.metadata
    && task.origin.createdAt == task.updatedAt == now && task.completedAt.None? && task.canceledReason.None?
  }

  /** The schedule has the start, the interval and the limit that were asked for, and has not fired. */
  predicate ScheduleIsAsAsked(schedule: Schedule, t: Id, input: CreateInput, now: Time) {
    && schedule.task == t && schedule.status == Enabled && schedule.kind == input.kind
    && schedule.start == schedule.nextRunAt == input.scheduledFor && schedule.maxRuns == input.maxRuns
    && schedule.intervalMs == (if input.intervalMs == Some(0) then None else input.intervalMs)
    && schedule.runCount == 0 && schedule.lastRunAt.None? && schedule.createdAt == schedule.updatedAt == now
    && schedule.completedAt.None? && schedule.pausedReason.None? && schedule.canceledReason.None?
  }

  predicate IsNewRun(run: Run, t: Id, assignee: string, revision: nat, trigger: TriggeredBy,
                     scheduledFor: Option<Time>, now: Time) {
    && run.task == t && run.status == Queued && run.assignee == assignee && run.taskRevision == revision
    && run.triggeredBy == trigger && run.scheduledFor == scheduledFor && run.createdAt == run.updatedAt == now
    && run.startedAt.None? && run.completedAt.None? && run.blockedReason.None? && run.failedReason.None?
    && run.canceledReason.None? && run.resultSummary.None?
  }

  predicate IsFirstRevision(revision: Revision, t: Id, task: Task, now: Time) {
    && revision.task == t && revision.number == 1 && revision.title == task.title
    && revision.description == task.description && revision.acceptanceCriteria == task.acceptanceCriteria
    && revision.changedBy == task.origin.createdBy && revision.reason == "Initial Task objective confirmed."
    && revision.sourceRun.None? && revision.createdAt == now
  }

  lemma CreateWorkIsAcceptedExactly(w: Tables, input: CreateInput, directory: set<string>, now: Time)
    ensures CreateWork(w, input, directory, now).result.Ok? <==> MayCreate(input, directory)
    ensures CreateWork(w, input, directory, now).result.Err? ==> CreateWork(w, input, directory, now).work == w
  {
    hide NonBlank, InsertTask, InsertRun, NewSchedule, QueuedRun, FirstRevision;
  }

  /** One new task, with its first revision, as asked for; scheduled work gets one schedule and no run, and
      immediate work one queued run of its owner and no schedule. */
  lemma CreateWorkMeans(w: Tables, input: CreateInput, directory: set<string>, now: Time)
    requires RefsOk(w) && CreateWork(w, input, directory, now).result.Ok?
    ensures var created := CreateWork(w, input, directory, now);
            var w', t := created.work, created.result.value;
            && t !in w.tasks && t in w'.tasks && w'.tasks == w.tasks[t := w'.tasks[t]]
            && TaskIsAsAsked(w'.tasks[t], input, now)
            && InitialRevision(t) in w'.revisions
            && w'.revisions == w.revisions[InitialRevision(t) := w'.revisions[InitialRevision(t)]]
            && IsFirstRevision(w'.revisions[InitialRevision(t)], t, w'.tasks[t], now)
            && if input.kind == Immediate then
                 && w'.schedules == w.schedules && t + 1 !in w.runs && t + 1 in w'.runs
                 && w'.runs == w.runs[t + 1 := w'.runs[t + 1]]
                 && IsNewRun(w'.runs[t + 1], t, w'.tasks[t].owner, 1, ByImmediate, Some(now), now)
                 && t + 2 !in w.events
                 && w'.events == w.events[t + 2 := Event(t + 1, now, w'.tasks[t].origin.createdBy, "created",
                                                         "Created WorkRun.")]
               else
                 && w'.runs == w.runs && w'.events == w.events && t + 1 !in w.schedules && t + 1 in w'.schedules
                 && w'.schedules == w.schedules[t + 1 := w'.schedules[t + 1]]
                 && ScheduleIsAsAsked(w'.schedules[t + 1], t, input, now)
  {
    hide RefsOk, Normalized, NonBlank, ScheduleOf, TaskIsAsAsked, ScheduleIsAsAsked, NewTask, NewSchedule;
    NextIdsAreFresh(w);
    NewTaskHasNoSchedule(w, NewTask(input, now).value);
    NewTaskIsAsAsked(input, now);
    NewScheduleIsAsAsked(input, w.next, now);
  }

  lemma NewTaskIsAsAsked(input: CreateInput, now: Time)
    requires NewTask(input, now).Ok?
    ensures var task := NewTask(input, now).value;
            TaskIsAsAsked(task, input, now) && task.revision == 1 && task.origin.createdAt == now
  {
    hide Normalized;
  }

  lemma NewScheduleIsAsAsked(input: CreateInput, t: Id, now: Time)
    ensures ScheduleIsAsAsked(NewSchedule(input, t, now), t, input, now)
  {
  }

  // ---------------------------------------------------------------- createDueWorkRun

  predicate MayFire(w: Tables, s: Id, directory: set<string>, now: Time) {
    && s in w.schedules && w.schedules[s].status == Enabled
    && w.schedules[s].nextRunAt.Some? && w.schedules[s].nextRunAt.value <= now
    && w.schedules[s].task in w.tasks && w.tasks[w.schedules[s].task].owner in directory
  }

  /** The schedule counts one more run; for the last one it is completed, and otherwise waits one interval. */
  predicate HasFiredOnce(a: Schedule, b: Schedule, now: Time)
    requires a.nextRunAt.Some?
  {
    var spent := a.kind == ScheduledOnce || (a.maxRuns.Some? && a.runCount + 1 >= a.maxRuns.value);
    && b.runCount == a.runCount + 1 && b.lastRunAt == Some(now) && b.updatedAt == now
    && (if spent then b.status == ScheduleCompleted && b.nextRunAt.None? && b.completedAt == Some(now)
        else
          && b.status == a.status && b.completedAt == a.completedAt
          && (a.intervalMs.Some? ==> b.nextRunAt == Some(a.nextRunAt.value + a.intervalMs.value)))
    && b.task == a.task && b.kind == a.kind && b.start == a.start && b.intervalMs == a.intervalMs
    && b.maxRuns == a.maxRuns && b.pausedReason == a.pausedReason && b.canceledReason == a.canceledReason
    && b.createdAt == a.createdAt
  }

  lemma CreateDueRunIsAcceptedExactly(w: Tables, s: Id, actor: string, directory: set<string>, now: Time)
    requires RefsOk(w) && SchedulesOk(w)
    ensures CreateDueRun(w, s, actor, directory, now).result.Ok? <==> MayFire(w, s, directory, now) && NonBlank(actor)
    ensures CreateDueRun(w, s, actor, directory, now).result.Err? && NonBlank(actor) ==>
              CreateDueRun(w, s, actor, directory, now).work == w
  {
    hide SchedulesOk, RefsOk, NonBlank, FirstFilling, RunIdsOf, AdvanceSchedule, ScheduleOf;
    if s in w.schedules { SlotFree(w, s); }
  }

  /** One queued run of the task's owner, for the slot that was due, and the schedule moved on. */
  lemma CreateDueRunMeans(w: Tables, s: Id, actor: string, directory: set<string>, now: Time)
    requires RefsOk(w) && SchedulesOk(w) && CreateDueRun(w, s, actor, directory, now).result.Ok?
    ensures s in w.schedules && w.schedules[s].nextRunAt.Some? && w.schedules[s].task in w.tasks
    ensures var fired := CreateDueRun(w, s, actor, directory, now);
            var w', r := fired.work, fired.result.value.run;
            var a := w.schedules[s];
            var task := w.tasks[a.task];
            && fired.result.value.created && w'.tasks == w.tasks && w'.revisions == w.revisions
            && r !in w.runs && r in w'.runs && w'.runs == w.runs[r := w'.runs[r]]
            && IsNewRun(w'.runs[r], a.task, task.owner, task.revision,
                        if a.kind == Recurring then ByRecurrence else BySchedule, a.nextRunAt, now)
            && r + 1 !in w.events && Normalized(Some(actor)).Some?
            && w'.events == w.events[r + 1 := Event(r, now, Normalized(Some(actor)).value, "created",
                                                    "Created WorkRun from due WorkSchedule.")]
            && s in w'.schedules && w'.schedules == w.schedules[s := w'.schedules[s]]
            && HasFiredOnce(a, w'.schedules[s], now)
  {
    hide RefsOk, SchedulesOk, FirstFilling, RunIdsOf, ScheduleOf, Normalized, NonBlank;
    CreateDueRunIsAcceptedExactly(w, s, actor, directory, now);
    NextIdsAreFresh(w);
    SlotFree(w, s);
    ScheduleFound(w, w.schedules[s].task);
    FiredHasAnInterval(w, s);
  }

  lemma FiredHasAnInterval(w: Tables, s: Id)
    requires RefsOk(w) && SchedulesOk(w) && s in w.schedules
    ensures w.schedules[s].kind == Recurring ==> w.schedules[s].intervalMs.Some? && w.schedules[s].intervalMs.value >= 1
    ensures w.schedules[s].kind in {ScheduledOnce, Recurring}
  {
    hide CountsOk, IdleOk;
    assert ScheduleFits(w.schedules[s], Slots(w.runs, w.schedules[s].task, w.next));
  }

  /** Without an actor the call fails with its first half done: the run is there and counted, but nothing is
      logged, and the schedule is still due. */
  lemma BlankActorLeavesAHalfFiredRun(w: Tables, s: Id, actor: string, directory: set<string>, now: Time)
    requires RefsOk(w) && SchedulesOk(w) && MayFire(w, s, directory, now) && !NonBlank(actor)
    ensures var fired, a := CreateDueRun(w, s, actor, directory, now), w.schedules[s];
            var w', task := fired.work, w.tasks[a.task];
            && fired.result == Err(TextRequired) && w.next !in w.runs && w.next in w'.runs
            && IsNewRun(w'.runs[w.next], a.task, task.owner, task.revision,
                        if a.kind == Recurring then ByRecurrence else BySchedule, a.nextRunAt, now)
            && w' == Tables(w.next + 1, w.tasks, w.revisions,
                            w.schedules[s := a.(runCount := a.runCount + 1, lastRunAt := Some(now), updatedAt := now)],
                            w.runs[w.next := w'.runs[w.next]], w.events)
  {
    hide RefsOk, SchedulesOk, FirstFilling, RunIdsOf, ScheduleOf, NonBlank, AdvanceSchedule;
    NextIdsAreFresh(w);
    SlotFree(w, s);
    ScheduleFound(w, w.schedules[s].task);
  }

  /** A run that its schedule has fired for this slot. */
  predicate IsFiredFor(run: Run, t: Id, slot: Time) {
    run.task == t && run.scheduledFor == Some(slot) && run.triggeredBy in {BySchedule, ByRecurrence}
  }

  /** Where such a run is there already, whatever else the tables hold, the oldest one comes back and nothing
      is changed. */
  lemma FiredRunIsReused(w: Tables, s: Id, actor: string, directory: set<string>, now: Time)
    requires MayFire(w, s, directory, now) && forall r :: r in w.runs ==> r < w.next
    requires exists r :: r in w.runs && IsFiredFor(w.runs[r], w.schedules[s].task, w.schedules[s].nextRunAt.value)
    ensures var fired := CreateDueRun(w, s, actor, directory, now);
            var t, slot := w.schedules[s].task, w.schedules[s].nextRunAt.value;
            && fired.work == w && fired.result.Ok? && !fired.result.value.created
            && var r := fired.result.value.run;
               && r in w.runs && IsFiredFor(w.runs[r], t, slot)
               && forall q :: q in w.runs && IsFiredFor(w.runs[q], t, slot) ==> r <= q
  {
    var t, slot := w.schedules[s].task, w.schedules[s].nextRunAt.value;
    RunIdsComplete(w.runs, t, w.next);
    OldestIsFirst(w.runs, RunIdsOf(w.runs, t, w.next), t, slot);
    forall q | q in w.runs && IsFiredFor(w.runs[q], t, slot) ensures q in RunIdsOf(w.runs, t, w.next) {
    }
  }

  lemma {:induction false} OldestIsFirst(runs: map<Id, Run>, ids: seq<Id>, t: Id, slot: Time)
    requires Ascending(ids) && forall i :: 0 <= i < |ids| ==> ids[i] in runs
    ensures match FirstFilling(runs, ids, t, slot)
            case None => forall q :: q in ids ==> !IsFiredFor(runs[q], t, slot)
            case Some(r) => r in ids && IsFiredFor(runs[r], t, slot)
                            && forall q :: q in ids && IsFiredFor(runs[q], t, slot) ==> r <= q
  {
    if ids != [] && !IsFiredFor(runs[ids[0]], t, slot) { OldestIsFirst(runs, ids[1..], t, slot); }
  }

  // ---------------------------------------------------------------- retryWorkRun

  /** The member that was named, or else the one who had the run. */
  function ChosenMember(run: Run, assignee: Option<string>): Option<string> {
    if assignee.Some? && Normalized(assignee).Some? then Normalized(assignee) else Normalized(Some(run.assignee))
  }

  ghost predicate MayRetry(w: Tables, r: Id, actor: string, assignee: Option<string>, directory: set<string>) {
    && NonBlank(actor) && r in w.runs && w.runs[r].status == Failed
    && w.runs[r].task in w.tasks && w.tasks[w.runs[r].task].status == Active
    && (forall q :: q in w.runs && w.runs[q].task == w.runs[r].task ==> w.runs[q].status in {Done, Failed, Canceled})
    && ChosenMember(w.runs[r], assignee).Some? && ChosenMember(w.runs[r], assignee).value in directory
  }

  lemma RetryIsAcceptedExactly(w: Tables, r: Id, actor: string, assignee: Option<string>, directory: set<string>,
                               now: Time)
    requires RefsOk(w)
    ensures RetryRun(w, r, actor, assignee, directory, now).result.Ok? <==> MayRetry(w, r, actor, assignee, directory)
    ensures RetryRun(w, r, actor, assignee, directory, now).result.Err? ==>
              RetryRun(w, r, actor, assignee, directory, now).work == w
  {
    hide RefsOk, NonBlank, FirstActive, RunIdsOf, AddRetry, QueuedRun;
    NormalizedTwice(assignee);
    hide Normalized;
    if r in w.runs { NoneIsActiveExactly(w, w.runs[r].task); }
  }

  lemma NoneIsActiveExactly(w: Tables, t: Id)
    requires RefsOk(w)
    ensures FirstActive(w.runs, RunIdsOf(w.runs, t, w.next)).None? <==>
            forall q :: q in w.runs && w.runs[q].task == t ==> w.runs[q].status in {Done, Failed, Canceled}
  {
    RunsAreOld(w);
    hide RefsOk, FirstActive;
    RunIdsComplete(w.runs, t, w.next);
    var ids := RunIdsOf(w.runs, t, w.next);
    assert forall q :: q in w.runs && w.runs[q].task == t ==> q in ids;
  }

  lemma CountingOnlyCounts(w: Tables, t: Id, now: Time)
    ensures CountRunOf(w, t, now) == w.(schedules := CountRunOf(w, t, now).schedules)
  {
  }

  /** One new queued run, of the chosen member, for the slot of the failed one and by the task's present
      revision; the failed run stays as it is, and both have one more event. */
  lemma RetryMeans(w: Tables, r: Id, actor: string, assignee: Option<string>, directory: set<string>, now: Time)
    requires RefsOk(w) && RetryRun(w, r, actor, assignee, directory, now).result.Ok?
    ensures r in w.runs && w.runs[r].task in w.tasks && Normalized(Some(actor)).Some?
    ensures ChosenMember(w.runs[r], assignee).Some?
    ensures var retried := RetryRun(w, r, actor, assignee, directory, now);
            var w', q := retried.work, retried.result.value;
            var t, who := w.runs[r].task, Normalized(Some(actor)).value;
            && q !in w.runs && q in w'.runs && w'.runs == w.runs[q := w'.runs[q]]
            && IsNewRun(w'.runs[q], t, ChosenMember(w.runs[r], assignee).value, w.tasks[t].revision, ByRetry,
                        w.runs[r].scheduledFor, now)
            && w'.tasks == w.tasks[t := w.tasks[t].(updatedAt := now)] && w'.revisions == w.revisions
            && q + 1 !in w.events && q + 2 !in w.events
            && w'.events == w.events[q + 1 := Event(r, now, who, "retry_created", "Created retry WorkRun.")]
                                    [q + 2 := Event(q, now, who, "created", "Created as a retry of failed WorkRun.")]
            && w'.schedules.Keys == w.schedules.Keys
            && forall s :: s in w.schedules ==>
                             w'.schedules[s] == if w.schedules[s].task != t then w.schedules[s]
                                                else w.schedules[s].(runCount := w.schedules[s].runCount + 1,
                                                                     lastRunAt := Some(now), updatedAt := now)
  {
    hide RefsOk, Normalized, NonBlank, CountRunOf, FirstActive, RunIdsOf;
    CountingOnlyCounts(w, w.runs[r].task, now);
    RetryIsAcceptedExactly(w, r, actor, assignee, directory, now);
    NextIdsAreFresh(w);
    NormalizedTwice(assignee);
    CountRunTouchesOne(w, w.runs[r].task, now);
  }

  // ---------------------------------------------------------------- reviseWorkTask

  /** The given text, trimmed, or the old one where none is given. */
  predicate TextIsRevised(given: Option<string>, before: Option<string>, revised: Option<string>) {
    if given.Some? then revised == Normalized(given) else revised == before
  }

  /** Something is changed by the texts that are given, and none of those is blank. */
  ghost predicate ChangesTexts(task: Task, input: ReviseInput) {
    && (input.title.Some? ==> NonBlank(input.title.value))
    && (input.description.Some? ==> NonBlank(input.description.value))
    && (input.acceptanceCriteria.Some? ==> NonBlank(input.acceptanceCriteria.value))
    && (|| (input.title.Some? && Normalized(input.title) != Some(task.title))
        || (input.description.Some? && Normalized(input.description) != task.description)
        || (input.acceptanceCriteria.Some? && Normalized(input.acceptanceCriteria) != Some(task.acceptanceCriteria)))
  }

  ghost predicate MayRevise(w: Tables, input: ReviseInput) {
    && NonBlank(input.actor) && NonBlank(input.reason)
    && input.task in w.tasks && w.tasks[input.task].status == Active
    && (input.sourceRun.Some? ==>
          && input.sourceRun.value in w.runs && w.runs[input.sourceRun.value].task == input.task
          && w.runs[input.sourceRun.value].status in {Queued, InProgress, Blocked})
    && ChangesTexts(w.tasks[input.task], input)
  }

  lemma ReviseIsAcceptedExactly(w: Tables, input: ReviseInput, now: Time)
    ensures ReviseTask(w, input, now).result.Ok? <==> MayRevise(w, input)
    ensures ReviseTask(w, input, now).result.Err? ==> ReviseTask(w, input, now).work == w
  {
    hide NonBlank, ApplyRevision;
  }

  predicate IsRevisionOf(revision: Revision, t: Id, task: Task, input: ReviseInput, now: Time) {
    && revision.task == t && revision.number == task.revision && revision.title == task.title
    && revision.description == task.description && revision.acceptanceCriteria == task.acceptanceCriteria
    && Some(revision.changedBy) == Normalized(Some(input.actor))
    && Some(revision.reason) == Normalized(Some(input.reason))
    && revision.sourceRun == input.sourceRun && revision.createdAt == now
  }

  /** Each text is the given one or the old one, under the next revision number; the revision is recorded
      with its author, and only the run that is named moves on to it. */
  lemma ReviseMeans(w: Tables, input: ReviseInput, now: Time)
    requires RefsOk(w) && ReviseTask(w, input, now).result.Ok?
    ensures MayRevise(w, input)
    ensures var revised := ReviseTask(w, input, now);
            var w', t := revised.work, input.task;
            var key := LaterRevision(w.next);
            && t in w'.tasks && w'.tasks == w.tasks[t := w'.tasks[t]] && w'.schedules == w.schedules
            && var a, b := w.tasks[t], w'.tasks[t];
               && TextIsRevised(input.title, Some(a.title), Some(b.title))
               && TextIsRevised(input.description, a.description, b.description)
               && TextIsRevised(input.acceptanceCriteria, Some(a.acceptanceCriteria), Some(b.acceptanceCriteria))
               && b.revision == revised.result.value == a.revision + 1 && b.updatedAt == now
               && b == a.(title := b.title, description := b.description, acceptanceCriteria := b.acceptanceCriteria,
                          revision := b.revision, updatedAt := b.updatedAt)
               && key !in w.revisions && key in w'.revisions && w'.revisions == w.revisions[key := w'.revisions[key]]
               && IsRevisionOf(w'.revisions[key], t, b, input, now)
               && match input.sourceRun
                  case None => w'.runs == w.runs && w'.events == w.events
                  case Some(r) =>
                    && w'.runs == w.runs[r := w.runs[r].(taskRevision := b.revision, updatedAt := now)]
                    && w.next + 1 !in w.events
                    && w'.events == w.events[w.next + 1 := Event(r, now, w'.revisions[key].changedBy, "task_revised",
                                                                 "WorkTask objective revised.")]
  {
    hide RefsOk, NonBlank;
    ReviseIsAcceptedExactly(w, input, now);
    NextIdsAreFresh(w);
    NextRevisionIsFresh(w);
    hide Normalized;
  }

  lemma NextRevisionIsFresh(w: Tables)
    requires RefsOk(w)
    ensures LaterRevision(w.next) !in w.revisions
  {
  }

  // ---------------------------------------------------------------- moveWorkSchedule

  /** Nothing to do, or one of the moves that a live schedule has. */
  predicate MayMoveSchedule(status: ScheduleStatus, move: ScheduleMove) {
    match move
    case Enable => status in {Enabled, Paused}
    case Pause => status in {Enabled, Paused}
    case CancelSchedule => status in {Enabled, Paused, ScheduleCanceled}
  }

  lemma MoveScheduleIsAcceptedExactly(w: Tables, s: Id, move: ScheduleMove, reason: Option<string>, now: Time)
    ensures MoveSchedule(w, s, move, reason, now).result.Ok? <==>
              s in w.schedules && MayMoveSchedule(w.schedules[s].status, move)
    ensures MoveSchedule(w, s, move, reason, now).result.Err? ==> MoveSchedule(w, s, move, reason, now).work == w
  {
    hide Normalized;
  }

  /** An enabled schedule is paused, a paused one enabled, a live one canceled together with its task; slot,
      start, interval, limit and count are kept, and asking again changes nothing. */
  lemma MoveScheduleMeans(w: Tables, s: Id, move: ScheduleMove, reason: Option<string>, now: Time)
    requires MoveSchedule(w, s, move, reason, now).result.Ok?
    ensures s in w.schedules
    ensures var w' := MoveSchedule(w, s, move, reason, now).work;
            var a := w.schedules[s];
            && w'.runs == w.runs && w'.revisions == w.revisions && w'.events == w.events && w'.next == w.next
            && s in w'.schedules && w'.schedules == w.schedules[s := w'.schedules[s]]
            && match (move, a.status)
               case (Enable, Paused) =>
                 && w'.tasks == w.tasks
                 && w'.schedules[s] == a.(status := Enabled, pausedReason := None, canceledReason := None,
                                          completedAt := None, updatedAt := now)
               case (Pause, Enabled) =>
                 && w'.tasks == w.tasks
                 && w'.schedules[s] == a.(status := Paused, pausedReason := Normalized(reason), canceledReason := None,
                                          completedAt := None, updatedAt := now)
               case (CancelSchedule, Enabled) => ScheduleIsCanceled(w, w', s, Normalized(reason), now)
               case (CancelSchedule, Paused) => ScheduleIsCanceled(w, w', s, Normalized(reason), now)
               case _ => w' == w
  {
    hide Normalized;
  }

  predicate ScheduleIsCanceled(w: Tables, w': Tables, s: Id, reason: Option<string>, now: Time)
    requires s in w.schedules && s in w'.schedules
  {
    var t := w.schedules[s].task;
    && w'.schedules[s] == w.schedules[s].(status := ScheduleCanceled, pausedReason := None, canceledReason := reason,
                                          completedAt := Some(now), updatedAt := now)
    && w'.tasks == if t !in w.tasks then w.tasks
                   else w.tasks[t := w.tasks[t].(status := TaskCanceled, canceledReason := reason,
                                                 completedAt := Some(now), updatedAt := now)]
  }

  // ---------------------------------------------------------------- archiveWorkTask, restoreWorkTask

  lemma ArchiveIsAcceptedExactly(w: Tables, t: Id, actor: string, reason: Option<string>, now: Time)
    ensures ArchiveTask(w, t, actor, reason, now).result.Ok? <==>
              NonBlank(actor) && t in w.tasks && w.tasks[t].status != Active
    ensures ArchiveTask(w, t, actor, reason, now).result.Err? ==> ArchiveTask(w, t, actor, reason, now).work == w
    ensures RestoreTask(w, t, actor, now).result.Ok? <==> NonBlank(actor) && t in w.tasks
    ensures RestoreTask(w, t, actor, now).result.Err? ==> RestoreTask(w, t, actor, now).work == w
  {
    hide NonBlank, ArchivedTask, StatusBeforeArchive;
  }

  /** The metadata of an archived task: who archived it, why, from which status, and otherwise what it was. */
  ghost predicate RemembersArchiving(a: map<string, MetadataValue>, b: map<string, MetadataValue>, status: TaskStatus,
                               actor: string, reason: Option<string>) {
    && "archivedFromStatus" in b && "archivedByMemberId" in b && "archivedAt" in b
    && b["archivedFromStatus"] == MetadataText(if status == Completed then "completed" else "canceled")
    && b["archivedByMemberId"] == MetadataText(actor)
    && (if reason.None? then "archivedReason" !in b
        else "archivedReason" in b && b["archivedReason"] == MetadataText(reason.value))
    && (var notes := {"archivedFromStatus", "archivedByMemberId", "archivedAt", "archivedReason"};
        forall key :: key !in notes ==> (key in b <==> key in a) && (key in a ==> b[key] == a[key]))
  }

  lemma ArchiveMeans(w: Tables, t: Id, actor: string, reason: Option<string>, now: Time)
    requires ArchiveTask(w, t, actor, reason, now).result.Ok?
    ensures t in w.tasks && Normalized(Some(actor)).Some?
    ensures var w' := ArchiveTask(w, t, actor, reason, now).work;
            if w.tasks[t].status == Archived then w' == w
            else
              && t in w'.tasks && w' == w.(tasks := w.tasks[t := w'.tasks[t]])
              && w.tasks[t].status in {Completed, TaskCanceled}
              && w'.tasks[t] == w.tasks[t].(status := Archived, metadata := w'.tasks[t].metadata, updatedAt := now)
              && RemembersArchiving(w.tasks[t].metadata, w'.tasks[t].metadata, w.tasks[t].status,
                                    Normalized(Some(actor)).value, Normalized(reason))
  {
    hide Normalized, NonBlank;
    assert "archivedFromStatus"[8] == 'F' && "archivedReason"[8] == 'R' && "archivedByMemberId"[8] == 'B'
           && "archivedAt"[8] == 'A';
  }

  lemma RestoreMeans(w: Tables, t: Id, actor: string, now: Time)
    requires RestoreTask(w, t, actor, now).result.Ok?
    ensures t in w.tasks
    ensures var w', a := RestoreTask(w, t, actor, now).work, w.tasks[t];
            if a.status != Archived then w' == w
            else
              && t in w'.tasks && w' == w.(tasks := w.tasks[t := a.(status := w'.tasks[t].status, updatedAt := now)])
              && w'.tasks[t].status
                 == if "archivedFromStatus" !in a.metadata then TaskCanceled
                    else if a.metadata["archivedFromStatus"] == MetadataText("active") then Active
                    else if a.metadata["archivedFromStatus"] == MetadataText("completed") then Completed
                    else TaskCanceled
  {
    hide Normalized, NonBlank;
  }

  // ---------------------------------------------------------------- recordWorkRunEvent

  lemma RecordEventMeans(w: Tables, r: Id, actor: string, eventType: string, summary: string, now: Time)
    ensures var recorded := RecordEvent(w, r, actor, eventType, summary, now);
            && (recorded.result.Ok? <==>
                  r in w.runs && NonBlank(actor) && NonBlank(eventType) && NonBlank(summary))
            && (recorded.result.Err? ==> recorded.work == w)
            && (recorded.result.Ok? ==>
                  && Normalized(Some(actor)).Some? && Normalized(Some(eventType)).Some?
                  && Normalized(Some(summary)).Some?
                  && recorded.result.value == w.next && recorded.work.next == w.next + 1
                  && recorded.work == w.(next := recorded.work.next, events := recorded.work.events)
                  && recorded.work.events
                     == w.events[w.next := Event(r, now, Normalized(Some(actor)).value,
                                                 Normalized(Some(eventType)).value, Normalized(Some(summary)).value)])
  {
    hide NonBlank;
  }

  // ---------------------------------------------------------------- moveWorkRun

  ghost predicate MayMove(run: Run, input: MoveInput) {
    && (match input.status
        case Queued => false
        case InProgress => run.status in {Queued, Blocked}
        case Blocked => run.status in {InProgress, Blocked}
        case Done => run.status in {InProgress, Blocked}
        case Failed => run.status in {InProgress, Blocked}
        case Canceled => run.status in {Queued, InProgress, Blocked})
    && (input.status in {Blocked, Failed, Canceled} ==> input.reason.Some? && NonBlank(input.reason.value))
    && (input.status == Done ==> input.evidence.Some? && NonBlank(input.evidence.value))
  }

  lemma MoveRunIsAcceptedExactly(w: Tables, input: MoveInput, now: Time)
    requires NonBlank(input.actor)
    ensures MoveRun(w, input, now).result.Ok? <==> input.run in w.runs && MayMove(w.runs[input.run], input)
    ensures MoveRun(w, input, now).result.Err? ==> MoveRun(w, input, now).work == w
  {
    hide NonBlank, MovedRun, SettleTask, SummaryOr, EventTypeFor;
  }

  /** The run has the new status and the texts that belong to it, and its times; the rest is as before. */
  predicate RunHasMoved(a: Run, b: Run, input: MoveInput, now: Time) {
    && b.status == input.status && b.updatedAt == now
    && b.startedAt == (if input.status == InProgress && a.startedAt.None? then Some(now) else a.startedAt)
    && b.completedAt == (if input.status in {Done, Failed, Canceled} then Some(now) else a.completedAt)
    && b.blockedReason == (if input.status == Blocked then Normalized(input.reason) else a.blockedReason)
    && b.failedReason == (if input.status == Failed then Normalized(input.reason) else a.failedReason)
    && b.canceledReason == (if input.status == Canceled then Normalized(input.reason) else a.canceledReason)
    && b.resultSummary == (if input.status != Done then a.resultSummary
                           else if Normalized(input.summary).Some? then Normalized(input.summary)
                           else Normalized(input.evidence))
    && b.task == a.task && b.assignee == a.assignee && b.taskRevision == a.taskRevision && b.createdAt == a.createdAt
    && b.triggeredBy == a.triggeredBy && b.scheduledFor == a.scheduledFor
  }

  /** One event of the run, by the actor, under the name of the new status and with the given summary. */
  predicate MoveIsLogged(event: Event, input: MoveInput, now: Time) {
    && event.run == input.run && event.timestamp == now && Some(event.actor) == Normalized(Some(input.actor))
    && event.eventType == (match input.status
                           case Queued => "queued"
                           case InProgress => "started"
                           case Blocked => "blocked"
                           case Done => "completed"
                           case Failed => "failed"
                           case Canceled => "canceled")
    && event.summary == if Normalized(input.summary).Some? then Normalized(input.summary).value else "Moved WorkRun."
  }

  /** Without an actor the call fails with its first half done: the run has moved, but nothing is logged and
      neither task nor schedule settles. */
  lemma BlankActorLeavesAHalfMove(w: Tables, input: MoveInput, now: Time)
    requires !NonBlank(input.actor) && input.run in w.runs && MayMove(w.runs[input.run], input)
    ensures var moved, r := MoveRun(w, input, now), input.run;
            && moved.result == Err(TextRequired) && r in moved.work.runs
            && moved.work == w.(runs := w.runs[r := moved.work.runs[r]])
            && RunHasMoved(w.runs[r], moved.work.runs[r], input, now)
  {
    hide NonBlank;
  }

  /** The task has a schedule that has fired, or been retried, as often as it may. */
  ghost predicate LimitReached(w: Tables, t: Id) {
    exists p :: p in w.schedules && w.schedules[p].task == t && w.schedules[p].maxRuns.Some?
                && w.schedules[p].runCount >= w.schedules[p].maxRuns.value
  }

  /** The end of this run is the end of its task's work. */
  ghost predicate EndsWork(w: Tables, t: Id, status: RunStatus) {
    status in {Done, Failed, Canceled} && (IsOneShotTask(w, t) || LimitReached(w, t))
  }

  /** A task whose work has ended is completed or canceled as its last run was, and active after a failure. */
  predicate TaskHasSettled(a: Task, b: Task, input: MoveInput, ends: bool, now: Time) {
    if input.status !in {Done, Failed, Canceled} then b == a
    else if !ends then b == a.(updatedAt := now)
    else if input.status == Done then
      b == a.(status := Completed, canceledReason := None, completedAt := Some(now), updatedAt := now)
    else if input.status == Canceled then
      b == a.(status := TaskCanceled, canceledReason := Normalized(input.reason), completedAt := Some(now),
              updatedAt := now)
    else b == a.(status := Active, canceledReason := None, updatedAt := now)
  }

  /** A schedule whose task's work has ended is completed and fires no more. */
  predicate ScheduleHasSettled(a: Schedule, b: Schedule, ends: bool, now: Time) {
    if ends then
      b == a.(status := ScheduleCompleted, nextRunAt := None, pausedReason := None, canceledReason := None,
              completedAt := if a.completedAt.Some? then a.completedAt else Some(now), lastRunAt := Some(now),
              updatedAt := now)
    else b == a.(lastRunAt := Some(now), updatedAt := now)
  }

  lemma MoveRunMeans(w: Tables, input: MoveInput, now: Time)
    requires BooksOk(w) && MoveRun(w, input, now).result.Ok?
    ensures input.run in w.runs && w.runs[input.run].task in w.tasks
    ensures var w', r := MoveRun(w, input, now).work, input.run;
            var t := w.runs[r].task;
            && r in w'.runs && w'.runs == w.runs[r := w'.runs[r]] && RunHasMoved(w.runs[r], w'.runs[r], input, now)
            && w.next !in w.events && w.next in w'.events && w'.events == w.events[w.next := w'.events[w.next]]
            && MoveIsLogged(w'.events[w.next], input, now) && w'.revisions == w.revisions
            && t in w'.tasks && w'.tasks == w.tasks[t := w'.tasks[t]]
            && TaskHasSettled(w.tasks[t], w'.tasks[t], input, EndsWork(w, t, input.status), now)
            && w'.schedules.Keys == w.schedules.Keys
            && forall s :: s in w.schedules ==>
                             if w.schedules[s].task == t && input.status in {Done, Failed, Canceled} then
                               ScheduleHasSettled(w.schedules[s], w'.schedules[s], EndsWork(w, t, input.status), now)
                             else w'.schedules[s] == w.schedules[s]
  {
    hide BooksOk, RecordsOk, SchedulesOk, LivesOk, LogsOk, RefsOk, EventsOk, SettleTask, NonBlank, EndsWork;
    hide ClosesWork, Normalized, TaskHasSettled, ScheduleHasSettled;
    BooksHaveGroups(w);
    RunsHaveTasks(w);
    NextIdsAreFresh(w);
    var run := w.runs[input.run];
    var moved := MovedRun(run, input, now);
    var w1 := w.(runs := w.runs[input.run := moved]);
    MovedStepKeepsSchedules(w, input.run, moved);
    var event := Event(input.run, now, Normalized(Some(input.actor)).value, EventTypeFor(input.status),
                       SummaryOr(input.summary, "Moved WorkRun."));
    var w2 := LogEvent(w1, event);
    LoggedStepKeepsSchedules(w1, event);
    LoggedWorkCloses(w, w2, run.task);
    SettlingMeans(w2, run.task, input, now);
  }

  /** The service's test whether a terminal run ends its task, in terms of the stored schedule. */
  lemma ClosesWorkMeans(w: Tables, t: Id)
    requires RefsOk(w) && CountsOk(w) && t in w.tasks && Anchored(w, t)
    ensures ClosesWork(w, t) <==> IsOneShotTask(w, t) || LimitReached(w, t)
  {
    hide IsOneShot, IsOneShotTask, Anchored, RepairedCount;
    AnchoredTestIsRight(w, t);
    ScheduleFound(w, t);
    if p :| p in w.schedules && w.schedules[p].task == t { RepairChangesNothing(w, p); }
  }

  lemma LoggedWorkCloses(w: Tables, w': Tables, t: Id)
    requires BooksOk(w) && RefsOk(w') && SchedulesOk(w') && t in w.tasks
    requires w'.tasks == w.tasks && w'.schedules == w.schedules
    requires forall r :: r in w.runs ==>
               r in w'.runs && w'.runs[r].task == w.runs[r].task && w'.runs[r].createdAt == w.runs[r].createdAt
    ensures ClosesWork(w', t) <==> IsOneShotTask(w, t) || LimitReached(w, t)
    ensures forall status :: EndsWork(w', t, status) <==> EndsWork(w, t, status)
    ensures ClosesWork(w', t) <==> IsOneShotTask(w', t) || LimitReached(w', t)
  {
    hide BooksOk, RefsOk, CountsOk, IdleOk, SlotsOk, ClosesWork, LimitReached, IsOneShotTask, Anchored;
    AnchorOfBooks(w, t);
    ProgressKeepsAnchor(w, w', t);
    ClosesWorkMeans(w', t);
    SameSchedulesSameLimit(w, w', t);
  }

  lemma SameSchedulesSameLimit(w: Tables, w': Tables, t: Id)
    requires w'.schedules == w.schedules
    ensures LimitReached(w', t) <==> LimitReached(w, t)
    ensures IsOneShotTask(w', t) <==> IsOneShotTask(w, t)
  {
  }

  lemma AnchorOfBooks(w: Tables, t: Id)
    requires BooksOk(w) && t in w.tasks
    ensures Anchored(w, t)
  {
    hide RefsOk, HistoryOk, RunRevisionsOk, TextsOk, CountsOk, IdleOk, SlotsOk, ArchivesOk, LogsOk, OneShotOk, Anchored;
    hide IsOneShotTask;
  }

  lemma SettlingMeans(w: Tables, t: Id, input: MoveInput, now: Time)
    requires RefsOk(w) && SchedulesOk(w) && t in w.tasks
    requires ClosesWork(w, t) <==> IsOneShotTask(w, t) || LimitReached(w, t)
    requires input.status == Canceled ==> Normalized(input.reason).Some?
    ensures var w' := SettleTask(w, t, input.status, Normalized(input.reason), now);
            && w'.runs == w.runs && w'.events == w.events && w'.revisions == w.revisions
            && t in w'.tasks && w'.tasks == w.tasks[t := w'.tasks[t]]
            && TaskHasSettled(w.tasks[t], w'.tasks[t], input, EndsWork(w, t, input.status), now)
            && w'.schedules.Keys == w.schedules.Keys
            && forall s :: s in w.schedules ==>
                             if w.schedules[s].task == t && input.status in {Done, Failed, Canceled} then
                               ScheduleHasSettled(w.schedules[s], w'.schedules[s], EndsWork(w, t, input.status), now)
                             else w'.schedules[s] == w.schedules[s]
  {
    hide RefsOk, SchedulesOk, ClosesWork, IsOneShotTask, LimitReached, ScheduleOf, Normalized, RepairedCount;
    hide TaskHasSettled, ScheduleHasSettled, SettledTask, SettledSchedule;
    ScheduleFound(w, t);
    SettledTaskMeans(w, t, input, now);
    if p :| p in w.schedules && w.schedules[p].task == t { SettledScheduleMeans(w, p, input.status, now); }
  }

  lemma SettledTaskMeans(w: Tables, t: Id, input: MoveInput, now: Time)
    requires t in w.tasks && (ClosesWork(w, t) <==> IsOneShotTask(w, t) || LimitReached(w, t))
    requires input.status == Canceled ==> Normalized(input.reason).Some?
    ensures var ends := EndsWork(w, t, input.status);
            if input.status !in {Done, Failed, Canceled} then TaskHasSettled(w.tasks[t], w.tasks[t], input, ends, now)
            else
              TaskHasSettled(w.tasks[t], SettledTask(w, t, input.status, Normalized(input.reason), now), input, ends,
                             now)
  {
    hide ClosesWork, IsOneShotTask, LimitReached, Normalized;
  }

  lemma SettledScheduleMeans(w: Tables, p: Id, status: RunStatus, now: Time)
    requires RefsOk(w) && SchedulesOk(w) && p in w.schedules && w.schedules[p].task in w.tasks
    requires var t := w.schedules[p].task; ClosesWork(w, t) <==> IsOneShotTask(w, t) || LimitReached(w, t)
    ensures var t := w.schedules[p].task;
            status in {Done, Failed, Canceled} ==>
              ScheduleHasSettled(w.schedules[p], SettledSchedule(w, t, w.schedules[p], now), EndsWork(w, t, status),
                                 now)
  {
    hide RefsOk, SchedulesOk, ClosesWork, IsOneShotTask, LimitReached, RepairedCount;
    RepairOfSchedules(w, p);
  }

  lemma RepairOfSchedules(w: Tables, s: Id)
    requires RefsOk(w) && SchedulesOk(w) && s in w.schedules
    ensures RepairedCount(w, w.schedules[s].task) == w.schedules[s].runCount
  {
    hide RefsOk, CountsOk, IdleOk, SlotsOk, RepairedCount;
    RepairChangesNothing(w, s);
  }

  // ---------------------------------------------------------------- cancelWorkTask

  ghost predicate MayCancelTask(w: Tables, t: Id, actor: string, reason: Option<string>) {
    && reason.Some? && NonBlank(reason.value) && NonBlank(actor)
    && t in w.tasks && w.tasks[t].status in {Active, Completed, TaskCanceled}
  }

  lemma CancelTaskIsAcceptedExactly(w: Tables, t: Id, actor: string, reason: Option<string>, now: Time)
    ensures CancelTask(w, t, actor, reason, now).result.Ok? <==> MayCancelTask(w, t, actor, reason)
    ensures CancelTask(w, t, actor, reason, now).result.Err? ==> CancelTask(w, t, actor, reason, now).work == w
  {
    hide NonBlank, CancelRuns, CancelSchedules, RunIdsOf;
  }

  /** The open runs of a task. */
  ghost function OpenRuns(w: Tables, t: Id): set<Id> {
    set r | r in w.runs && w.runs[r].task == t && w.runs[r].status in {Queued, InProgress, Blocked}
  }

  /** One new event for each of the runs, and no other. */
  ghost predicate CancellationsAreLogged(a: map<Id, Event>, b: map<Id, Event>, ended: set<Id>, actor: string,
                                         now: Time) {
    && (forall e :: e in a ==> e in b && b[e] == a[e])
    && (forall e :: e in b && e !in a ==>
                      && b[e].run in ended
                      && b[e] == Event(b[e].run, now, actor, "canceled",
                                       "Canceled WorkRun because its WorkTask was canceled."))
    && (forall r :: r in ended ==> exists e :: e in b && e !in a && b[e].run == r)
    && (forall e, f :: e in b && f in b && e !in a && f !in a && e != f ==> b[e].run != b[f].run)
  }

  /** Task, live schedules and open runs are canceled for the given reason; all else stays. */
  lemma CancelTaskMeans(w: Tables, t: Id, actor: string, reason: Option<string>, now: Time)
    requires RefsOk(w) && CancelTask(w, t, actor, reason, now).result.Ok?
    ensures t in w.tasks && Normalized(Some(actor)).Some? && Normalized(reason).Some?
    ensures var w', why := CancelTask(w, t, actor, reason, now).work, Normalized(reason);
            && w'.revisions == w.revisions
            && w'.tasks == w.tasks[t := w.tasks[t].(status := TaskCanceled, canceledReason := why,
                                                    completedAt := Some(now), updatedAt := now)]
            && w'.schedules.Keys == w.schedules.Keys
            && (forall s :: s in w.schedules ==>
                              w'.schedules[s]
                              == if w.schedules[s].task == t && w.schedules[s].status in {Enabled, Paused} then
                                   w.schedules[s].(status := ScheduleCanceled, canceledReason := why, nextRunAt := None,
                                                   completedAt := Some(now), updatedAt := now)
                                 else w.schedules[s])
            && w'.runs.Keys == w.runs.Keys
            && (forall r :: r in w.runs ==>
                              w'.runs[r]
                              == if r in OpenRuns(w, t) then
                                   w.runs[r].(status := Canceled, completedAt := Some(now), canceledReason := why,
                                              updatedAt := now)
                                 else w.runs[r])
            && CancellationsAreLogged(w.events, w'.events, OpenRuns(w, t), Normalized(Some(actor)).value, now)
  {
    hide RefsOk, CancelRuns, Normalized, CancellationsAreLogged, CancelSchedules;
    CancelTaskEffect(w, t, actor, reason, now);
    CanceledSchedulesMean(w.schedules, t, Normalized(reason).value, now);
    NextIdsAreFresh(w);
    RunsAreOld(w);
    var ids := RunIdsOf(w.runs, t, w.next);
    RunIdsComplete(w.runs, t, w.next);
    var w1 := w.(tasks := w.tasks[t := CanceledTask(w.tasks[t], Normalized(reason), now)],
                 schedules := CancelSchedules(w.schedules, t, Normalized(reason).value, now));
    CancelRunsLog(w1, ids, Normalized(Some(actor)).value, Normalized(reason).value, now);
    assert OpenAmong(w1, ids) == OpenRuns(w, t);
  }

  lemma CanceledSchedulesMean(schedules: map<Id, Schedule>, t: Id, reason: string, now: Time)
    ensures var canceled := CancelSchedules(schedules, t, reason, now);
            && canceled.Keys == schedules.Keys
            && forall s :: s in schedules ==>
                             canceled[s]
                             == if schedules[s].task == t && schedules[s].status in {Enabled, Paused} then
                                  schedules[s].(status := ScheduleCanceled, canceledReason := Some(reason),
                                                nextRunAt := None, completedAt := Some(now), updatedAt := now)
                                else schedules[s]
  {
  }

  ghost function OpenAmong(w: Tables, ids: seq<Id>): set<Id> {
    set r | r in ids && r in w.runs && w.runs[r].status in {Queued, InProgress, Blocked}
  }

  lemma {:induction false} CancelRunsLog(w: Tables, ids: seq<Id>, actor: string, reason: string, now: Time)
    requires Ascending(ids) && forall i :: 0 <= i < |ids| ==> ids[i] in w.runs
    requires forall e :: e in w.events ==> e < w.next
    ensures var w' := CancelRuns(w, ids, actor, reason, now);
            && CancellationsAreLogged(w.events, w'.events, OpenAmong(w, ids), actor, now)
            && w.next <= w'.next && forall e :: e in w'.events ==> e < w'.next
  {
    if ids == [] {
      assert OpenAmong(w, ids) == {};
    } else {
      hide CancelOneRun, CancellationsAreLogged, Ascending, OpenAmong;
      var rest, last := ids[..|ids| - 1], ids[|ids| - 1];
      LastIsNew(w, ids);
      CancelRunsLog(w, rest, actor, reason, now);
      CancelRunsEffect(w, rest, actor, reason, now);
      CancelOneRunLogs(CancelRuns(w, rest, actor, reason, now), w.events, OpenAmong(w, rest), last, actor, reason, now);
    }
  }

  lemma LastIsNew(w: Tables, ids: seq<Id>)
    requires Ascending(ids) && ids != [] && forall i :: 0 <= i < |ids| ==> ids[i] in w.runs
    ensures var rest, last := ids[..|ids| - 1], ids[|ids| - 1];
            && Ascending(rest) && last !in rest && last !in OpenAmong(w, rest)
            && OpenAmong(w, ids)
               == if w.runs[last].status in {Queued, InProgress, Blocked} then OpenAmong(w, rest) + {last}
                  else OpenAmong(w, rest)
  {
    assert ids == ids[..|ids| - 1] + [ids[|ids| - 1]];
  }

  lemma CancelOneRunLogs(w: Tables, a: map<Id, Event>, ended: set<Id>, r: Id, actor: string, reason: string, now: Time)
    requires CancellationsAreLogged(a, w.events, ended, actor, now) && forall e :: e in w.events ==> e < w.next
    requires r in w.runs && r !in ended
    ensures var w' := CancelOneRun(w, r, actor, reason, now);
            && w.next <= w'.next && (forall e :: e in w'.events ==> e < w'.next)
            && CancellationsAreLogged(a, w'.events,
                                      if w.runs[r].status in {Queued, InProgress, Blocked} then ended + {r} else ended,
                                      actor, now)
  {
    hide CancellationsAreLogged, CanceledRun;
    OneMoreIsLogged(a, w.events, ended, w.next, r, actor, now);
  }

  lemma OneMoreIsLogged(a: map<Id, Event>, b: map<Id, Event>, ended: set<Id>, e: Id, r: Id, actor: string, now: Time)
    requires CancellationsAreLogged(a, b, ended, actor, now) && e !in b && r !in ended
    ensures CancellationsAreLogged(a, b[e := Event(r, now, actor, "canceled",
                                                   "Canceled WorkRun because its WorkTask was canceled.")],
                                   ended + {r}, actor, now)
  {
    var c := b[e := Event(r, now, actor, "canceled", "Canceled WorkRun because its WorkTask was canceled.")];
    assert e in c && e !in a && c[e].run == r;
    forall q | q in ended ensures exists f :: f in c && f !in a && c[f].run == q {
      var f :| f in b && f !in a && b[f].run == q;
      assert f in c && c[f].run == q;
    }
  }
}
