/** Every operation of WorkService keeps run counts, slots and the rule that only active tasks fire. */
module SchedulesKept {
  import opened Prelude
  import opened WorkDomain
  import opened WorkOperations
  import opened Listings
  import opened WorkInvariants
  import opened RecordsKept

  /** The three promises about schedules. */
  ghost predicate SchedulesOk(w: Tables) {
    CountsOk(w) && IdleOk(w) && SlotsOk(w)
  }

  // ---------------------------------------------------------------- progress leaves the listings alone

  lemma ProgressKeepsListings(w: Tables, w': Tables, t: Id)
    requires forall r :: r in w.runs ==> r < w.next
    requires w.next <= w'.next && SameRuns(w.runs, w'.runs)
    ensures RunIdsOf(w'.runs, t, w'.next) == RunIdsOf(w.runs, t, w.next)
    ensures Slots(w'.runs, t, w'.next) == Slots(w.runs, t, w.next)
  {
    RunsSame(w.runs, w'.runs, t, w.next, w'.next);
  }

  ghost predicate SameCounts(a: map<Id, Schedule>, b: map<Id, Schedule>) {
    forall s :: s in a && s in b ==> b[s].runCount == a[s].runCount
  }

  lemma ProgressKeepsCounts(w: Tables, w': Tables)
    requires CountsOk(w) && Progress(w, w') && SameCounts(w.schedules, w'.schedules)
    requires forall r :: r in w.runs ==> r < w.next
    ensures CountsOk(w')
  {
    forall s | s in w'.schedules
      ensures w'.schedules[s].runCount == |RunIdsOf(w'.runs, w'.schedules[s].task, w'.next)|
    {
      ProgressKeepsListings(w, w', w.schedules[s].task);
    }
  }

  /** A schedule that has moved on without firing. */
  predicate MovedOn(a: Schedule, b: Schedule) {
    && a.kind == b.kind && a.start == b.start && a.intervalMs == b.intervalMs && a.maxRuns == b.maxRuns
    && a.runCount == b.runCount
    && (IsLive(b.status) ==> IsLive(a.status) && b.nextRunAt == a.nextRunAt)
  }

  lemma MovedOnFits(a: Schedule, b: Schedule, slots: seq<Option<Time>>)
    requires MovedOn(a, b) && ScheduleFits(a, slots)
    ensures ScheduleFits(b, slots)
  {
  }

  lemma ProgressKeepsSlots(w: Tables, w': Tables)
    requires SlotsOk(w) && Progress(w, w')
    requires forall r :: r in w.runs ==> r < w.next
    requires forall s :: s in w.schedules && s in w'.schedules ==> MovedOn(w.schedules[s], w'.schedules[s])
    ensures SlotsOk(w')
  {
    forall s | s in w'.schedules ensures ScheduleFits(w'.schedules[s], Slots(w'.runs, w'.schedules[s].task, w'.next)) {
      ProgressKeepsListings(w, w', w.schedules[s].task);
      MovedOnFits(w.schedules[s], w'.schedules[s], Slots(w.runs, w.schedules[s].task, w.next));
    }
  }

  /** Schedules only die, and a task only stops being active together with its schedule. */
  ghost predicate StaysIdle(w: Tables, w': Tables) {
    forall s :: s in w.schedules && s in w'.schedules && IsLive(w'.schedules[s].status) ==>
                  IsLive(w.schedules[s].status) && StaysActive(w.tasks, w'.tasks, w.schedules[s].task)
  }

  predicate StaysActive(a: map<Id, Task>, b: map<Id, Task>, t: Id) {
    t in a && t in b && a[t].status == Active ==> b[t].status == Active
  }

  lemma ProgressKeepsIdle(w: Tables, w': Tables)
    requires IdleOk(w) && Progress(w, w') && StaysIdle(w, w')
    ensures IdleOk(w')
  {
  }

  ghost predicate SchedulesMoveOn(w: Tables, w': Tables) {
    && (forall s :: s in w.schedules && s in w'.schedules ==> MovedOn(w.schedules[s], w'.schedules[s]))
    && StaysIdle(w, w')
  }

  lemma ProgressKeepsSchedules(w: Tables, w': Tables)
    requires SchedulesOk(w) && Progress(w, w') && SchedulesMoveOn(w, w')
    requires forall r :: r in w.runs ==> r < w.next
    ensures SchedulesOk(w')
  {
    hide CountsOk, IdleOk, SlotsOk;
    ProgressKeepsCounts(w, w');
    ProgressKeepsSlots(w, w');
    ProgressKeepsIdle(w, w');
  }

  // ---------------------------------------------------------------- operations that add no run

  lemma SettleTaskKeepsSchedules(w: Tables, t: Id, status: RunStatus, reason: Option<string>, now: Time)
    requires RefsOk(w) && SchedulesOk(w)
    ensures SchedulesOk(SettleTask(w, t, status, reason, now))
  {
    if IsTerminal(status) && t in w.tasks {
      SettleTaskIsProgress(w, t, status, reason, now);
      ScheduleFound(w, t);
      SettleTaskMovesOn(w, t, status, reason, now);
      ProgressKeepsSchedules(w, SettleTask(w, t, status, reason, now));
    }
  }

  lemma SettleTaskMovesOn(w: Tables, t: Id, status: RunStatus, reason: Option<string>, now: Time)
    requires RefsOk(w) && CountsOk(w) && t in w.tasks && IsTerminal(status)
    ensures SchedulesMoveOn(w, SettleTask(w, t, status, reason, now))
  {
    hide RefsOk, CountsOk, ScheduleOf, RepairedCount;
    ScheduleFound(w, t);
    if s :| ScheduleOf(w, t) == Some(s) { RepairChangesNothing(w, s); }
    SettledMovesOn(w, t, status, reason, now);
  }

  lemma SettledMovesOn(w: Tables, t: Id, status: RunStatus, reason: Option<string>, now: Time)
    requires t in w.tasks && IsTerminal(status)
    requires forall s :: s in w.schedules && w.schedules[s].task == t ==> ScheduleOf(w, t) == Some(s)
    requires ScheduleOf(w, t).Some? ==> RepairedCount(w, t) == w.schedules[ScheduleOf(w, t).value].runCount
    ensures SchedulesMoveOn(w, SettleTask(w, t, status, reason, now))
  {
    hide ClosesWork, ScheduleOf, RepairedCount;
  }

  lemma MoveRunKeepsSchedules(w: Tables, input: MoveInput, now: Time)
    requires RefsOk(w) && SchedulesOk(w)
    ensures SchedulesOk(MoveRun(w, input, now).work)
  {
    hide SettleTask, SchedulesOk;
    if input.run in w.runs && MoveError(w.runs[input.run], input).None? {
      var run := w.runs[input.run];
      var w1 := w.(runs := w.runs[input.run := MovedRun(run, input, now)]);
      MovedStepKeepsSchedules(w, input.run, MovedRun(run, input, now));
      match Normalized(Some(input.actor))
      case None =>
      case Some(actor) =>
        var event := Event(input.run, now, actor, EventTypeFor(input.status),
                           SummaryOr(input.summary, "Moved WorkRun."));
        hide MovedRun;
        LoggedStepKeepsSchedules(w1, event);
        SettleTaskKeepsSchedules(LogEvent(w1, event), run.task, input.status, Normalized(input.reason), now);
    }
  }

  lemma MovedStepKeepsSchedules(w: Tables, r: Id, run: Run)
    requires RefsOk(w) && SchedulesOk(w) && r in w.runs && SamePlace(w.runs[r], run)
    ensures RefsOk(w.(runs := w.runs[r := run])) && SchedulesOk(w.(runs := w.runs[r := run]))
  {
    hide SchedulesOk;
    var w1 := w.(runs := w.runs[r := run]);
    OneRunIsProgress(w, r, run);
    ProgressKeepsRefs(w, w1);
    ProgressKeepsSchedules(w, w1);
  }

  lemma LoggedStepKeepsSchedules(w: Tables, event: Event)
    requires RefsOk(w) && SchedulesOk(w) && event.run in w.runs
    ensures RefsOk(LogEvent(w, event)) && SchedulesOk(LogEvent(w, event))
  {
    hide SchedulesOk;
    LogEventIsProgress(w, event);
    ProgressKeepsRefs(w, LogEvent(w, event));
    ProgressKeepsSchedules(w, LogEvent(w, event));
  }

  /** A live schedule's next slot does not depend on whether it is paused, so pausing and resuming
      keeps the place. */
  lemma MoveScheduleKeepsSchedules(w: Tables, s: Id, move: ScheduleMove, reason: Option<string>, now: Time)
    requires RefsOk(w) && SchedulesOk(w)
    ensures SchedulesOk(MoveSchedule(w, s, move, reason, now).work)
  {
    hide SchedulesOk, Progress, SchedulesMoveOn, MoveSchedule;
    MoveScheduleIsProgress(w, s, move, reason, now);
    MoveScheduleMovesOn(w, s, move, reason, now);
    ProgressKeepsSchedules(w, MoveSchedule(w, s, move, reason, now).work);
  }

  lemma MoveScheduleMovesOn(w: Tables, s: Id, move: ScheduleMove, reason: Option<string>, now: Time)
    requires OneSchedule(w.schedules)
    ensures SchedulesMoveOn(w, MoveSchedule(w, s, move, reason, now).work)
  {
    var w' := MoveSchedule(w, s, move, reason, now).work;
    if w' != w {
      forall q | q in w.schedules && q in w'.schedules && IsLive(w'.schedules[q].status)
        ensures StaysActive(w.tasks, w'.tasks, w.schedules[q].task)
      {
      }
    }
  }

  lemma CancelTaskKeepsSchedules(w: Tables, t: Id, actor: string, reason: Option<string>, now: Time)
    requires RefsOk(w) && SchedulesOk(w)
    ensures SchedulesOk(CancelTask(w, t, actor, reason, now).work)
  {
    hide SchedulesOk, Progress, SchedulesMoveOn, CancelTask;
    CancelTaskIsProgress(w, t, actor, reason, now);
    CancelTaskMovesOn(w, t, actor, reason, now);
    ProgressKeepsSchedules(w, CancelTask(w, t, actor, reason, now).work);
  }

  lemma CancelTaskMovesOn(w: Tables, t: Id, actor: string, reason: Option<string>, now: Time)
    ensures SchedulesMoveOn(w, CancelTask(w, t, actor, reason, now).work)
  {
  }

  lemma ArchiveAndRestoreKeepSchedules(w: Tables, t: Id, actor: string, reason: Option<string>, now: Time)
    requires RefsOk(w) && SchedulesOk(w)
    ensures SchedulesOk(ArchiveTask(w, t, actor, reason, now).work)
    ensures SchedulesOk(RestoreTask(w, t, actor, now).work)
  {
    hide SchedulesOk, Progress, StatusBeforeArchive, ArchivedTask;
    ArchiveAndRestoreAreProgress(w, t, actor, reason, now);
    OnlyInactiveTasksAreArchived(w, t, actor, reason, now);
    ProgressKeepsSchedules(w, ArchiveTask(w, t, actor, reason, now).work);
    ProgressKeepsSchedules(w, RestoreTask(w, t, actor, now).work);
  }

  lemma OnlyInactiveTasksAreArchived(w: Tables, t: Id, actor: string, reason: Option<string>, now: Time)
    ensures SchedulesMoveOn(w, ArchiveTask(w, t, actor, reason, now).work)
    ensures SchedulesMoveOn(w, RestoreTask(w, t, actor, now).work)
  {
    hide ArchivedTask, StatusBeforeArchive;
    OneTaskMovesOn(w, ArchiveTask(w, t, actor, reason, now).work, t);
    OneTaskMovesOn(w, RestoreTask(w, t, actor, now).work, t);
  }

  lemma OneTaskMovesOn(w: Tables, w': Tables, t: Id)
    requires w'.schedules == w.schedules
    requires t in w.tasks && t in w'.tasks ==> w.tasks[t].status != Active || w'.tasks[t].status == Active
    requires forall u :: u in w.tasks && u in w'.tasks && u != t ==> w'.tasks[u] == w.tasks[u]
    ensures SchedulesMoveOn(w, w')
  {
  }

  lemma SameSchedulesMoveOn(w: Tables, w': Tables)
    requires w'.schedules == w.schedules && w'.tasks == w.tasks
    ensures SchedulesMoveOn(w, w')
  {
  }

  lemma RecordEventKeepsSchedules(w: Tables, r: Id, actor: string, eventType: string, summary: string, now: Time)
    requires RefsOk(w) && SchedulesOk(w)
    ensures SchedulesOk(RecordEvent(w, r, actor, eventType, summary, now).work)
  {
    hide SchedulesOk, Progress, SchedulesMoveOn;
    RecordEventIsProgress(w, r, actor, eventType, summary, now);
    SameSchedulesMoveOn(w, RecordEvent(w, r, actor, eventType, summary, now).work);
    ProgressKeepsSchedules(w, RecordEvent(w, r, actor, eventType, summary, now).work);
  }

  /** Revising changes no schedule and no place of a run. */
  lemma ReviseTaskKeepsSchedules(w: Tables, input: ReviseInput, now: Time)
    requires RefsOk(w) && SchedulesOk(w)
    ensures SchedulesOk(ReviseTask(w, input, now).work)
  {
    hide SchedulesOk;
    if ReviseTask(w, input, now).result.Ok? {
      var task := RevisedTask(w.tasks[input.task], input, now).value;
      ApplyRevisionKeepsSchedules(w, input.task, task, input.sourceRun,
                                  Normalized(Some(input.actor)).value, Normalized(Some(input.reason)).value, now);
    }
  }

  lemma ApplyRevisionKeepsSchedules(w: Tables, t: Id, task: Task, source: Option<Id>, actor: string, reason: string,
                                    now: Time)
    requires RefsOk(w) && SchedulesOk(w) && t in w.tasks && task.status == w.tasks[t].status
    requires source.Some? ==> source.value in w.runs
    ensures SchedulesOk(ApplyRevision(w, t, task, source, actor, reason, now))
  {
    var w' := ApplyRevision(w, t, task, source, actor, reason, now);
    forall s | s in w'.schedules
      ensures w'.schedules[s].runCount == |RunIdsOf(w'.runs, w'.schedules[s].task, w'.next)|
      ensures ScheduleFits(w'.schedules[s], Slots(w'.runs, w'.schedules[s].task, w'.next))
    {
      RunsSame(w.runs, w'.runs, w.schedules[s].task, w.next, w'.next);
    }
  }

  // ---------------------------------------------------------------- operations that add a run

  /** The listings after one more run of task t. */
  lemma NewRunInListings(w: Tables, w': Tables, run: Run, t: Id)
    requires forall r :: r in w.runs ==> r < w.next
    requires w'.runs == w.runs[w.next := run] && w.next < w'.next
    ensures RunIdsOf(w'.runs, t, w'.next) == RunIdsOf(w.runs, t, w.next) + (if run.task == t then [w.next] else [])
    ensures Slots(w'.runs, t, w'.next)
            == Slots(w.runs, t, w.next) + (if run.task == t && IsFired(run) then [run.scheduledFor] else [])
  {
    if run.task == t {
      RunsAppend(w.runs, w'.runs, t, w.next, w.next, w'.next);
    } else {
      RunsSame(w.runs, w'.runs, t, w.next, w'.next);
      assert Slots(w.runs, t, w.next) + [] == Slots(w.runs, t, w.next);
    }
  }

  /** Counting a run where it is inserted keeps every counter right. */
  lemma InsertedRunIsCounted(w: Tables, w': Tables, run: Run)
    requires RefsOk(w) && CountsOk(w)
    requires w'.runs == w.runs[w.next := run] && w.next < w'.next && w'.schedules.Keys == w.schedules.Keys
    requires forall s :: s in w.schedules ==>
                           && w'.schedules[s].task == w.schedules[s].task
                           && w'.schedules[s].runCount
                              == w.schedules[s].runCount + (if w.schedules[s].task == run.task then 1 else 0)
    ensures CountsOk(w')
  {
    forall s | s in w'.schedules
      ensures w'.schedules[s].runCount == |RunIdsOf(w'.runs, w'.schedules[s].task, w'.next)|
    {
      NewRunInListings(w, w', run, w.schedules[s].task);
    }
  }

  /** Only the schedule of the task is touched. */
  lemma CountRunTouchesOne(w: Tables, t: Id, now: Time)
    requires RefsOk(w)
    ensures var w' := CountRunOf(w, t, now);
            && w'.schedules.Keys == w.schedules.Keys
            && forall s :: s in w.schedules ==>
                             w'.schedules[s] == if w.schedules[s].task == t then CountRun(w.schedules[s], now)
                                                else w.schedules[s]
  {
    ScheduleFound(w, t);
  }

  /** Firing a schedule in its slot extends the sequence of slots by one. */
  lemma FiredScheduleFits(schedule: Schedule, slots: seq<Option<Time>>, slot: Time, now: Time)
    requires NeedsSchedule(schedule.kind) && schedule.status == Enabled && ScheduleFits(schedule, slots)
    requires schedule.nextRunAt == Some(slot) && |slots| <= schedule.runCount
    ensures ScheduleFits(AdvanceSchedule(CountRun(schedule, now), slot, now), slots + [Some(slot)])
    ensures IsLive(AdvanceSchedule(CountRun(schedule, now), slot, now).status) ==>
              AdvanceSchedule(CountRun(schedule, now), slot, now).status == Enabled
  {
    if schedule.kind == Recurring {
      assert InSequence(slots + [Some(slot)], schedule.start.value, schedule.intervalMs.value);
    }
  }

  lemma CreateDueRunEffect(w: Tables, s: Id, actor: string, directory: set<string>, now: Time)
    requires RefsOk(w) && SchedulesOk(w)
    requires CreateDueRun(w, s, actor, directory, now).result.Ok?
    ensures s in w.schedules && w.schedules[s].status == Enabled && w.schedules[s].nextRunAt.Some?
    ensures var w' := CreateDueRun(w, s, actor, directory, now).work;
            var schedule := w.schedules[s];
            && w'.tasks == w.tasks && w.next < w'.next && w'.revisions == w.revisions
            && w'.runs.Keys == w.runs.Keys + {w.next}
            && w'.runs[w.next].task == schedule.task && IsFired(w'.runs[w.next])
            && w'.runs[w.next].scheduledFor == schedule.nextRunAt && w'.runs[w.next].status == Queued
            && schedule.task in w.tasks && w'.runs[w.next].assignee == w.tasks[schedule.task].owner
            && w'.runs == w.runs[w.next := w'.runs[w.next]]
            && w'.schedules == w.schedules[s := AdvanceSchedule(CountRun(schedule, now), schedule.nextRunAt.value, now)]
  {
    hide SchedulesOk, AdvanceSchedule, CountRun;
    SlotFree(w, s);
    ScheduleFound(w, w.schedules[s].task);
  }

  lemma SlotFree(w: Tables, s: Id)
    requires RefsOk(w) && SchedulesOk(w) && s in w.schedules
    ensures w.schedules[s].status == Enabled && w.schedules[s].nextRunAt.Some? ==>
              var t := w.schedules[s].task;
              FirstFilling(w.runs, RunIdsOf(w.runs, t, w.next), t, w.schedules[s].nextRunAt.value).None?
  {
    if w.schedules[s].status == Enabled && w.schedules[s].nextRunAt.Some? { SlotIsFree(w, s); }
  }

  lemma CreateDueRunKeepsSchedules(w: Tables, s: Id, actor: string, directory: set<string>, now: Time)
    requires RefsOk(w) && SchedulesOk(w) && NonBlank(actor)
    ensures SchedulesOk(CreateDueRun(w, s, actor, directory, now).work)
  {
    if CreateDueRun(w, s, actor, directory, now).result.Ok? {
      CreateDueRunEffect(w, s, actor, directory, now);
      FiringKeepsSchedules(w, CreateDueRun(w, s, actor, directory, now).work, s, now);
    }
  }

  lemma FiringKeepsSchedules(w: Tables, w': Tables, s: Id, now: Time)
    requires RefsOk(w) && SchedulesOk(w)
    requires s in w.schedules && w.schedules[s].status == Enabled && w.schedules[s].nextRunAt.Some?
    requires w'.tasks == w.tasks && w.next < w'.next && w.next in w'.runs
             && w'.runs == w.runs[w.next := w'.runs[w.next]]
    requires w'.runs[w.next].task == w.schedules[s].task && IsFired(w'.runs[w.next])
    requires w'.runs[w.next].scheduledFor == w.schedules[s].nextRunAt
    requires w'.schedules == w.schedules[s := AdvanceSchedule(CountRun(w.schedules[s], now),
                                                              w.schedules[s].nextRunAt.value, now)]
    ensures SchedulesOk(w')
  {
    var schedule, run := w.schedules[s], w'.runs[w.next];
    FiringCounts(w, w', s, run, now);
    FiringFits(w, s, now);
    assert SlotsOk(w') by {
      forall q | q in w'.schedules ensures ScheduleFits(w'.schedules[q],
                                                        Slots(w'.runs, w'.schedules[q].task, w'.next)) {
        NewRunInListings(w, w', run, w.schedules[q].task);
      }
    }
    assert IdleOk(w');
  }

  lemma FiringCounts(w: Tables, w': Tables, s: Id, run: Run, now: Time)
    requires RefsOk(w) && CountsOk(w) && s in w.schedules && w.schedules[s].nextRunAt.Some?
    requires w.next < w'.next && w'.runs == w.runs[w.next := run] && run.task == w.schedules[s].task
    requires w'.schedules == w.schedules[s := AdvanceSchedule(CountRun(w.schedules[s], now),
                                                              w.schedules[s].nextRunAt.value, now)]
    ensures CountsOk(w')
  {
    InsertedRunIsCounted(w, w', run);
  }

  lemma FiringFits(w: Tables, s: Id, now: Time)
    requires CountsOk(w) && SlotsOk(w) && RefsOk(w)
    requires s in w.schedules && w.schedules[s].status == Enabled && w.schedules[s].nextRunAt.Some?
    ensures var schedule := w.schedules[s];
            var fired := AdvanceSchedule(CountRun(schedule, now), schedule.nextRunAt.value, now);
            && ScheduleFits(fired, Slots(w.runs, schedule.task, w.next) + [schedule.nextRunAt])
            && (IsLive(fired.status) ==> fired.status == Enabled)
  {
    SlotsAreRuns(w.runs, w.schedules[s].task, w.next);
    FiredScheduleFits(w.schedules[s], Slots(w.runs, w.schedules[s].task, w.next), w.schedules[s].nextRunAt.value, now);
  }

  /** A retry is counted but takes no slot; a schedule that could still fire once has no run to retry. */
  lemma RetryRunKeepsSchedules(w: Tables, r: Id, actor: string, assignee: Option<string>, directory: set<string>,
                               now: Time)
    requires RefsOk(w) && SchedulesOk(w)
    ensures SchedulesOk(RetryRun(w, r, actor, assignee, directory, now).work)
  {
    var w' := RetryRun(w, r, actor, assignee, directory, now).work;
    if w' != w {
      var t := w.runs[r].task;
      CountRunTouchesOne(w, t, now);
      RetryEffect(w, r, actor, assignee, directory, now);
      RetryKeepsSchedules(w, w', r, w'.runs[w.next], now);
    }
  }

  lemma RetryEffect(w: Tables, r: Id, actor: string, assignee: Option<string>, directory: set<string>, now: Time)
    requires RefsOk(w) && RetryRun(w, r, actor, assignee, directory, now).result.Ok?
    ensures var w' := RetryRun(w, r, actor, assignee, directory, now).work;
            && r in w.runs && w.runs[r].task in w.tasks && w.next < w'.next && w'.revisions == w.revisions
            && w.next in w'.runs && w'.runs == w.runs[w.next := w'.runs[w.next]]
            && w'.runs[w.next].task == w.runs[r].task && w'.runs[w.next].triggeredBy == ByRetry
            && w'.runs[w.next].status == Queued
            && w'.schedules == CountRunOf(w, w.runs[r].task, now).schedules
            && w'.tasks == w.tasks[w.runs[r].task := w.tasks[w.runs[r].task].(updatedAt := now)]
  {
  }

  lemma RetryKeepsSchedules(w: Tables, w': Tables, r: Id, run: Run, now: Time)
    requires RefsOk(w) && SchedulesOk(w) && r in w.runs && w.runs[r].task in w.tasks
    requires w.next < w'.next && w'.runs == w.runs[w.next := run] && run.task == w.runs[r].task
             && run.triggeredBy == ByRetry
    requires w'.schedules.Keys == w.schedules.Keys
    requires forall s :: s in w.schedules ==>
                           w'.schedules[s] == if w.schedules[s].task == run.task then CountRun(w.schedules[s], now)
                                              else w.schedules[s]
    requires w'.tasks == w.tasks[run.task := w.tasks[run.task].(updatedAt := now)]
    ensures SchedulesOk(w')
  {
    InsertedRunIsCounted(w, w', run);
    assert IdleOk(w');
    forall s | s in w'.schedules ensures ScheduleFits(w'.schedules[s], Slots(w'.runs, w'.schedules[s].task, w'.next)) {
      NewRunInListings(w, w', run, w.schedules[s].task);
      assert ScheduleFits(w.schedules[s], Slots(w.runs, w.schedules[s].task, w.next));
      if w.schedules[s].task == run.task {
        RunIdsComplete(w.runs, run.task, w.next);
        assert r in RunIdsOf(w.runs, run.task, w.next);
        assert w.schedules[s].runCount > 0;
      }
    }
  }

  // ---------------------------------------------------------------- new work

  lemma InsertTaskKeepsSchedules(w: Tables, task: Task)
    requires RefsOk(w) && SchedulesOk(w)
    ensures SchedulesOk(InsertTask(w, task))
  {
    var w' := InsertTask(w, task);
    forall s | s in w'.schedules
      ensures w'.schedules[s].runCount == |RunIdsOf(w'.runs, w'.schedules[s].task, w'.next)|
      ensures ScheduleFits(w'.schedules[s], Slots(w'.runs, w'.schedules[s].task, w'.next))
    {
      RunsSame(w.runs, w'.runs, w.schedules[s].task, w.next, w'.next);
    }
  }

  lemma InsertScheduleKeepsSchedules(w: Tables, schedule: Schedule)
    requires RefsOk(w) && SchedulesOk(w) && schedule.task in w.tasks && w.tasks[schedule.task].status == Active
    requires schedule.runCount == 0 && (forall r :: r in w.runs ==> w.runs[r].task != schedule.task)
    requires ScheduleFits(schedule, [])
    ensures SchedulesOk(InsertSchedule(w, schedule))
  {
    var w' := InsertSchedule(w, schedule);
    forall s | s in w'.schedules
      ensures w'.schedules[s].runCount == |RunIdsOf(w'.runs, w'.schedules[s].task, w'.next)|
      ensures ScheduleFits(w'.schedules[s], Slots(w'.runs, w'.schedules[s].task, w'.next))
    {
      if s == w.next {
        RunsGap(w.runs, schedule.task, 0, w'.next);
      } else {
        RunsSame(w.runs, w'.runs, w.schedules[s].task, w.next, w'.next);
      }
    }
  }

  lemma NewScheduleFits(input: CreateInput, t: Id, now: Time)
    requires TriggerError(input).None? && NeedsSchedule(input.kind)
    ensures ScheduleFits(NewSchedule(input, t, now), [])
  {
  }

  lemma FirstRunKeepsSchedules(w: Tables, run: Run, event: Event)
    requires RefsOk(w) && SchedulesOk(w)
    requires forall s :: s in w.schedules ==> w.schedules[s].task != run.task
    ensures SchedulesOk(LogEvent(InsertRun(w, run), event))
  {
    var w' := LogEvent(InsertRun(w, run), event);
    ScheduleFound(w, run.task);
    forall s | s in w'.schedules
      ensures w'.schedules[s].runCount == |RunIdsOf(w'.runs, w'.schedules[s].task, w'.next)|
      ensures ScheduleFits(w'.schedules[s], Slots(w'.runs, w'.schedules[s].task, w'.next))
    {
      NewRunInListings(w, w', run, w.schedules[s].task);
    }
  }

  lemma CreateWorkKeepsSchedules(w: Tables, input: CreateInput, directory: set<string>, now: Time)
    requires RecordsOk(w) && SchedulesOk(w)
    ensures SchedulesOk(CreateWork(w, input, directory, now).work)
  {
    hide SchedulesOk;
    var after := CreateWork(w, input, directory, now);
    if after.result.Ok? {
      var task := NewTask(input, now).value;
      var w1 := InsertTask(w, task);
      NothingPointsAhead(w);
      InsertTaskKeepsRefs(w, task);
      InsertTaskKeepsSchedules(w, task);
      if NeedsSchedule(input.kind) {
        NewScheduleFits(input, w.next, now);
        InsertScheduleKeepsSchedules(w1, NewSchedule(input, w.next, now));
      } else {
        var run := QueuedRun(w.next, task.owner, task.revision, ByImmediate, Some(now), now);
        FirstRunKeepsSchedules(w1, run, Event(w1.next, now, task.origin.createdBy, "created", "Created WorkRun."));
      }
    }
  }
}
