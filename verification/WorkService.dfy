/** WorkService: every method opens the repository, edits its arrays, and leaves the tables - once the
    queued statements have run - exactly as the operation's specification says. */
module WorkService {
  import opened Prelude
  import opened WorkDomain
  import opened WorkOperations
  import Ops = WorkOperations
  import opened Listings
  import opened RunLog
  import opened WorkInvariants
  import opened RecordsKept
  import opened WorkStatements
  import opened WorkRepository
  import opened Company
  import opened CompanyDatabase

  // ---------------------------------------------------------------- what the tables grant the service

  /** From this every obligation of the repository follows at its call sites. */
  ghost predicate Grants(w: Tables) {
    && (forall t :: t in w.tasks ==> t < w.next && w.tasks[t].revision > 0)
    && (forall k :: k in w.revisions ==> w.revisions[k].task in w.tasks && KeyFits(k, w.revisions[k], w.next))
    && (forall k :: k in w.revisions ==> w.revisions[k].number <= w.tasks[w.revisions[k].task].revision)
    && (forall s :: s in w.schedules ==> s < w.next && w.schedules[s].task in w.tasks && ScheduleCheck(w.schedules[s]))
    && (forall r :: r in w.runs ==> r < w.next && w.runs[r].task in w.tasks && w.runs[r].taskRevision > 0)
    && OneSchedule(w.schedules)
  }

  lemma BooksGrant(w: Tables)
    requires BooksOk(w)
    ensures Grants(w) && RefsOk(w)
  {
    hide TextsOk, CountsOk, IdleOk, ArchivesOk, OneShotsOk, LogsOk;
    forall s | s in w.schedules ensures ScheduleCheck(w.schedules[s]) {
      assert ScheduleFits(w.schedules[s], Slots(w.runs, w.schedules[s].task, w.next));
    }
  }

  /** With one schedule per task, the one that memory finds first is the one the queries find. */
  lemma CountedIsScheduleOf(w: Tables, t: Id, counted: Option<Id>)
    requires OneSchedule(w.schedules) && forall s :: s in w.schedules ==> s < w.next
    requires counted.Some? ==> counted.value in w.schedules && w.schedules[counted.value].task == t
    requires counted.None? ==> forall s :: s in w.schedules ==> w.schedules[s].task != t
    ensures counted == ScheduleOf(w, t) && MayCountRun(w, t, counted)
  {
    if counted.Some? { ScheduleOfIs(w, counted.value); }
  }

  class WorkService {
    const db: Database

    constructor (db: Database)
      ensures this.db == db
    {
      this.db := db;
    }

    /** save and close: the queued statements reach the database. */
    method Close(repository: Repository)
      requires repository.Valid() && repository.Synced() && repository.loaded == db.store.work
      modifies db
      ensures db.store == old(db.store).(work := repository.View())
    {
      var written, ok := repository.Flush(db.store.work);
      db.store := db.store.(work := written.(next := repository.next));
    }

    /** createWorkRun under a new id: the run joins, and its task's schedule counts it. */
    method QueueRun(repository: Repository, run: Run) returns (r: Id)
      requires repository.Valid() && repository.Synced() && Grants(repository.View())
      requires run.task in repository.View().tasks && run.taskRevision > 0
      modifies repository
      ensures repository.Valid() && repository.Synced() && repository.loaded == old(repository.loaded)
      ensures r == old(repository.View()).next && repository.View() == InsertRun(old(repository.View()), run)
    {
      hide Repository.View, Repository.Valid, Repository.Synced, ScheduleOf;
      ghost var w := repository.View();
      r := repository.CreateId();
      ghost var counted := repository.CreateWorkRun(r, run);
      CountedIsScheduleOf(w, run.task, counted);
    }

    /** appendWorkRunEvent under a new id. */
    method Log(repository: Repository, event: Event) returns (e: Id)
      requires repository.Valid() && repository.Synced() && event.run in repository.View().runs
      modifies repository
      ensures repository.Valid() && repository.Synced() && repository.loaded == old(repository.loaded)
      ensures e == old(repository.View()).next && repository.View() == LogEvent(old(repository.View()), event)
    {
      hide Repository.View, Repository.Valid, Repository.Synced;
      e := repository.CreateId();
      repository.AppendWorkRunEvent(e, event);
    }

    // -------------------------------------------------------------- createWork

    method CreateWork(input: CreateInput, directory: set<string>, now: Time) returns (result: Result<Id, Error>)
      requires BooksOk(db.store.work)
      modifies db
      ensures Effect(db.store, result) == Worked(old(db.store),
                                                 Ops.CreateWork(old(db.store.work), input, directory, now))
    {
      hide BooksOk, Repository.View, Repository.Valid, Repository.Synced;
      ghost var w := db.store.work;
      BooksGrant(w);
      if TriggerError(input).Some? {
        return Err(TriggerError(input).value);
      }
      var owner := Normalized(Some(input.owner));
      if owner.None? {
        return Err(TextRequired);
      }
      if owner.value !in directory {
        return Err(AssigneeUnavailable);
      }
      var repository := new Repository(db.store.work);
      var t := repository.CreateId();
      var created := NewTask(input, now);
      if created.Err? {
        return Err(created.error);
      }
      var task := created.value;
      FreshTask(w, task);
      repository.CreateWorkTask(t, task);
      ghost var w1 := repository.View();
      assert w1 == InsertTask(w, task);
      if NeedsSchedule(input.kind) {
        var s := repository.CreateId();
        repository.CreateWorkSchedule(s, NewSchedule(input, t, now));
      } else {
        var r := QueueRun(repository, QueuedRun(t, task.owner, task.revision, ByImmediate, Some(now), now));
        var _ := Log(repository, Event(r, now, task.origin.createdBy, "created", "Created WorkRun."));
      }
      Close(repository);
      return Ok(t);
    }

    // -------------------------------------------------------------- createDueWorkRun

    /** The first run in the list that stands for the slot. */
    method FindFilling(repository: Repository, ids: seq<Id>, t: Id, slot: Time) returns (found: Option<Id>)
      requires forall i :: 0 <= i < |ids| ==> ids[i] in repository.View().runs
      ensures found == FirstFilling(repository.View().runs, ids, t, slot)
    {
      found := None;
      var index := |ids|;
      while index > 0
        invariant 0 <= index <= |ids|
        invariant found == FirstFilling(repository.View().runs, ids[index..], t, slot)
      {
        index := index - 1;
        var run := repository.GetWorkRun(ids[index]);
        assert ids[index..][1..] == ids[index + 1..];
        if FillsSlot(run.value, t, slot) {
          found := Some(ids[index]);
        }
      }
      assert ids[0..] == ids;
    }

    method CreateDueWorkRun(s: Id, actor: string, directory: set<string>, now: Time)
      returns (result: Result<DueRun, Error>)
      requires BooksOk(db.store.work)
      modifies db
      ensures Effect(db.store, result) == Worked(old(db.store),
                                                 CreateDueRun(old(db.store.work), s, actor, directory, now))
    {
      hide BooksOk, ScheduleOf, FirstFilling, RunIdsOf, AdvanceSchedule, Repository.View, Repository.Valid,
           Repository.Synced;
      ghost var w := db.store.work;
      BooksGrant(w);
      var repository := new Repository(db.store.work);
      var schedule := repository.GetWorkSchedule(s);
      if schedule.None? {
        return Err(NotFound);
      }
      if schedule.value.status != Enabled {
        return Err(ScheduleNotEnabled);
      }
      if schedule.value.nextRunAt.None? || schedule.value.nextRunAt.value > now {
        return Err(ScheduleNotDue);
      }
      LiveScheduleHasASlot(w, s);
      var t, slot := schedule.value.task, schedule.value.nextRunAt.value;
      var task := repository.GetWorkTask(t);
      if task.None? {
        return Err(NotFound);
      }
      if task.value.owner !in directory {
        return Err(AssigneeUnavailable);
      }
      var runs := repository.ListWorkRuns(t);
      var existing := FindFilling(repository, runs, t, slot);
      if existing.Some? {
        Close(repository);
        return Ok(DueRun(existing.value, false));
      }
      var trigger := if schedule.value.kind == Recurring then ByRecurrence else BySchedule;
      var r := QueueRun(repository, QueuedRun(t, task.value.owner, task.value.revision, trigger, Some(slot), now));
      ScheduleOfIs(w, s);
      var who := Normalized(Some(actor));
      if who.None? {
        Close(repository);
        return Err(TextRequired);
      }
      var _ := Log(repository, Event(r, now, who.value, "created", "Created WorkRun from due WorkSchedule."));
      var incremented := repository.GetWorkSchedule(s);
      if incremented.Some? {
        AdvancedIsChecked(schedule.value, incremented.value, slot, now);
        repository.UpdateWorkSchedule(s, AdvanceSchedule(incremented.value, slot, now));
      }
      Close(repository);
      return Ok(DueRun(r, true));
    }

    // -------------------------------------------------------------- retryWorkRun

    method FindActive(repository: Repository, ids: seq<Id>) returns (found: Option<Id>)
      requires forall i :: 0 <= i < |ids| ==> ids[i] in repository.View().runs
      ensures found == FirstActive(repository.View().runs, ids)
    {
      found := None;
      var index := |ids|;
      while index > 0
        invariant 0 <= index <= |ids|
        invariant found == FirstActive(repository.View().runs, ids[index..])
      {
        index := index - 1;
        var run := repository.GetWorkRun(ids[index]);
        assert ids[index..][1..] == ids[index + 1..];
        if run.value.status == Queued || run.value.status == InProgress || run.value.status == Blocked {
          found := Some(ids[index]);
        }
      }
      assert ids[0..] == ids;
    }

    method RetryWorkRun(r: Id, actor: string, assignee: Option<string>, directory: set<string>, now: Time)
      returns (result: Result<Id, Error>)
      requires BooksOk(db.store.work)
      modifies db
      ensures Effect(db.store, result) == Worked(old(db.store),
                                                 RetryRun(old(db.store.work), r, actor, assignee, directory, now))
    {
      hide BooksOk, ScheduleOf, FirstActive, RunIdsOf, Repository.View, Repository.Valid, Repository.Synced;
      ghost var w := db.store.work;
      BooksGrant(w);
      var who := Normalized(Some(actor));
      if who.None? {
        return Err(TextRequired);
      }
      var repository := new Repository(db.store.work);
      var previous := repository.GetWorkRun(r);
      if previous.None? {
        return Err(NotFound);
      }
      if previous.value.status != Failed {
        return Err(OnlyFailedRunsRetry);
      }
      var t := previous.value.task;
      var task := repository.GetWorkTask(t);
      if task.None? {
        return Err(NotFound);
      }
      if task.value.status != Active {
        return Err(TaskNotActive);
      }
      var runs := repository.ListWorkRuns(t);
      var active := FindActive(repository, runs);
      if active.Some? {
        return Err(ActiveRunExists);
      }
      var member := Normalized(OrElse(Normalized(assignee), Some(previous.value.assignee)));
      if member.None? {
        return Err(TextRequired);
      }
      if member.value !in directory {
        return Err(AssigneeUnavailable);
      }
      var retry := QueueRun(repository,
                            QueuedRun(t, member.value, task.value.revision, ByRetry, previous.value.scheduledFor, now));
      var _ := Log(repository, Event(r, now, who.value, "retry_created", "Created retry WorkRun."));
      var _ := Log(repository, Event(retry, now, who.value, "created", "Created as a retry of failed WorkRun."));
      repository.UpdateWorkTask(t, task.value.(updatedAt := now));
      Close(repository);
      return Ok(retry);
    }

    // -------------------------------------------------------------- reviseWorkTask

    /** The run on whose behalf the task is revised, if one is named. */
    method SourceRun(repository: Repository, input: ReviseInput) returns (source: Result<Option<Run>, Error>)
      ensures source.Err? <==> SourceRunError(repository.View(), input).Some?
      ensures source.Err? ==> Some(source.error) == SourceRunError(repository.View(), input)
      ensures source.Ok? && input.sourceRun.Some? ==> input.sourceRun.value in repository.View().runs
      ensures source.Ok? ==>
                source.value == if input.sourceRun.None? then None
                                else Some(repository.View().runs[input.sourceRun.value])
    {
      if input.sourceRun.None? {
        return Ok(None);
      }
      var run := repository.GetWorkRun(input.sourceRun.value);
      if run.None? {
        return Err(NotFound);
      }
      if run.value.task != input.task {
        return Err(ForeignRun);
      }
      if IsTerminal(run.value.status) {
        return Err(RunIsTerminal);
      }
      source := Ok(run);
    }

    method ReviseWorkTask(input: ReviseInput, now: Time) returns (result: Result<nat, Error>)
      requires BooksOk(db.store.work)
      modifies db
      ensures Effect(db.store, result) == Worked(old(db.store), ReviseTask(old(db.store.work), input, now))
    {
      hide SourceRunError, RevisedTask;
      hide BooksOk, Repository.View, Repository.Valid, Repository.Synced;
      ghost var w := db.store.work;
      BooksGrant(w);
      var actor, reason := Normalized(Some(input.actor)), Normalized(Some(input.reason));
      if actor.None? || reason.None? {
        return Err(TextRequired);
      }
      var repository := new Repository(db.store.work);
      var task := repository.GetWorkTask(input.task);
      if task.None? {
        return Err(NotFound);
      }
      if task.value.status != Active {
        return Err(TaskNotActive);
      }
      var source := SourceRun(repository, input);
      if source.Err? {
        return Err(source.error);
      }
      var revised := RevisedTask(task.value, input, now);
      if revised.Err? {
        return Err(revised.error);
      }
      RevisionIsNew(w, input, now);
      StoreRevision(repository, input, revised.value, source.value, actor.value, reason.value, now);
      Close(repository);
      return Ok(revised.value.revision);
    }

    /** The revision in one statement, and the source run's remark. */
    method StoreRevision(repository: Repository, input: ReviseInput, task: Task, source: Option<Run>, actor: string,
                         reason: string, now: Time)
      requires repository.Valid() && repository.Synced()
      requires var w := repository.View();
               && input.task in w.tasks && task == RevisedTaskRow(w.tasks[input.task], task) && task.revision > 0
               && task.updatedAt == now
               && LaterRevision(w.next) !in w.revisions && !HasNumber(w.revisions, input.task, task.revision)
               && (input.sourceRun.Some? ==> input.sourceRun.value in w.runs)
               && source == if input.sourceRun.None? then None else Some(w.runs[input.sourceRun.value])
      modifies repository
      ensures repository.Valid() && repository.Synced() && repository.loaded == old(repository.loaded)
      ensures old(input.sourceRun.Some? ==> input.sourceRun.value in repository.View().runs)
      ensures repository.View() == ApplyRevision(old(repository.View()), input.task, task, input.sourceRun, actor,
                                                 reason, now)
    {
      hide Repository.View, Repository.Valid, Repository.Synced;
      var number := task.revision;
      var id := repository.CreateId();
      var revision := Revision(input.task, number, task.title, task.description, task.acceptanceCriteria, actor, reason,
                               input.sourceRun, now);
      var run := if source.Some? then Some(source.value.(taskRevision := number, updatedAt := now)) else None;
      repository.ReviseWorkTask(input.task, task, LaterRevision(id), revision, input.sourceRun, run);
      if input.sourceRun.Some? {
        var _ := Log(repository, Event(input.sourceRun.value, now, actor, "task_revised",
                                       "WorkTask objective revised."));
      }
    }

    // -------------------------------------------------------------- moveWorkSchedule

    method MoveWorkSchedule(s: Id, move: ScheduleMove, reason: Option<string>, now: Time)
      returns (result: Result<Id, Error>)
      requires BooksOk(db.store.work)
      modifies db
      ensures Effect(db.store, result) == Worked(old(db.store), MoveSchedule(old(db.store.work), s, move, reason, now))
    {
      hide BooksOk, Repository.View, Repository.Valid, Repository.Synced;
      ghost var w := db.store.work;
      BooksGrant(w);
      var repository := new Repository(db.store.work);
      var schedule := repository.GetWorkSchedule(s);
      var status := Target(move);
      if schedule.None? {
        return Err(NotFound);
      }
      if schedule.value.status == status {
        return Ok(s);
      }
      if status !in AllowedScheduleMoves(schedule.value.status) {
        return Err(MoveNotAllowed);
      }
      var why := Normalized(reason);
      LiveScheduleHasASlot(w, s);
      repository.UpdateWorkSchedule(s, schedule.value.(
        status := status,
        pausedReason := if status == Paused then why else None,
        canceledReason := if status == ScheduleCanceled then why else None,
        completedAt := if status == ScheduleCanceled then Some(now) else None,
        updatedAt := now));
      if status == ScheduleCanceled {
        var task := repository.GetWorkTask(schedule.value.task);
        if task.Some? {
          repository.UpdateWorkTask(schedule.value.task, CanceledTask(task.value, why, now));
        }
      }
      Close(repository);
      return Ok(s);
    }

    // -------------------------------------------------------------- cancelWorkTask

    method CancelTheSchedules(repository: Repository, ids: seq<Id>, reason: string, now: Time)
      requires repository.Valid() && repository.Synced()
      requires forall i :: 0 <= i < |ids| ==> ids[i] in repository.View().schedules
      modifies repository
      ensures repository.Valid() && repository.Synced() && repository.loaded == old(repository.loaded)
      ensures repository.View() == old(repository.View()).(schedules := CanceledAmong(old(repository.View()).schedules,
                                                                                      ids, reason, now))
    {
      hide Repository.View, Repository.Valid, Repository.Synced;
      ghost var w := repository.View();
      var index := 0;
      assert CanceledAmong(w.schedules, ids[..0], reason, now) == w.schedules;
      while index < |ids|
        invariant 0 <= index <= |ids| && repository.Valid() && repository.Synced()
                  && repository.loaded == old(repository.loaded)
        invariant repository.View() == w.(schedules := CanceledAmong(w.schedules, ids[..index], reason, now))
      {
        var s := ids[index];
        var schedule := repository.GetWorkSchedule(s);
        CanceledOneMore(w.schedules, ids[..index], s, reason, now);
        assert ids[..index + 1] == ids[..index] + [s];
        if schedule.value.status == Enabled || schedule.value.status == Paused {
          repository.UpdateWorkSchedule(s, CanceledSchedule(schedule.value, reason, now));
        }
        index := index + 1;
      }
      assert ids[..index] == ids;
    }

    method CancelTheRuns(repository: Repository, ids: seq<Id>, actor: string, reason: string, now: Time)
      requires repository.Valid() && repository.Synced()
      requires forall i :: 0 <= i < |ids| ==> ids[i] in repository.View().runs
      modifies repository
      ensures repository.Valid() && repository.Synced() && repository.loaded == old(repository.loaded)
      ensures repository.View() == CancelRuns(old(repository.View()), ids, actor, reason, now)
    {
      hide Repository.View, Repository.Valid, Repository.Synced;
      ghost var w := repository.View();
      var index := 0;
      while index < |ids|
        invariant 0 <= index <= |ids| && repository.Valid() && repository.Synced()
                  && repository.loaded == old(repository.loaded)
        invariant repository.View() == CancelRuns(w, ids[..index], actor, reason, now)
      {
        var r := ids[index];
        var run := repository.GetWorkRun(r);
        assert ids[..index + 1][..index] == ids[..index];
        if !IsTerminal(run.value.status) {
          repository.UpdateWorkRun(r, CanceledRun(run.value, reason, now));
          var _ := Log(repository, Event(r, now, actor, "canceled",
                                         "Canceled WorkRun because its WorkTask was canceled."));
        }
        index := index + 1;
      }
      assert ids[..index] == ids;
    }

    method CancelWorkTask(t: Id, actor: string, reason: Option<string>, now: Time) returns (result: Result<Id, Error>)
      requires BooksOk(db.store.work)
      modifies db
      ensures Effect(db.store, result) == Worked(old(db.store), CancelTask(old(db.store.work), t, actor, reason, now))
    {
      hide BooksOk, CancelRuns, CancelSchedules, CanceledAmong, RunIdsOf, ScheduleIdsOf, Repository.View,
           Repository.Valid, Repository.Synced;
      ghost var w := db.store.work;
      BooksGrant(w);
      var why, who := Normalized(reason), Normalized(Some(actor));
      if why.None? || who.None? {
        return Err(TextRequired);
      }
      var repository := new Repository(db.store.work);
      var task := repository.GetWorkTask(t);
      if task.None? {
        return Err(NotFound);
      }
      if task.value.status == Archived {
        return Err(TaskIsArchived);
      }
      var schedules := repository.ListWorkSchedules(t);
      var runs := repository.ListWorkRuns(t);
      repository.UpdateWorkTask(t, CanceledTask(task.value, why, now));
      CancelTheSchedules(repository, schedules, why.value, now);
      CanceledAmongIsOfTask(w, t, why.value, now);
      CancelTheRuns(repository, runs, who.value, why.value, now);
      Close(repository);
      return Ok(t);
    }

    // -------------------------------------------------------------- moveWorkRun

    /** Whether some run was created together with the task. */
    method SomeCreatedAt(repository: Repository, ids: seq<Id>, createdAt: Time) returns (found: bool)
      requires forall i :: 0 <= i < |ids| ==> ids[i] in repository.View().runs
      ensures found <==> exists i :: 0 <= i < |ids| && repository.View().runs[ids[i]].createdAt == createdAt
    {
      hide Repository.View;
      found := false;
      for index := 0 to |ids|
        invariant found <==> exists i :: 0 <= i < index && repository.View().runs[ids[i]].createdAt == createdAt
      {
        var run := repository.GetWorkRun(ids[index]);
        if run.value.createdAt == createdAt {
          found := true;
        }
      }
    }

    /** What a terminal run means for its task and schedule. */
    method Settle(repository: Repository, t: Id, status: RunStatus, reason: Option<string>, now: Time)
      requires repository.Valid() && repository.Synced() && Grants(repository.View()) && IsTerminal(status)
      modifies repository
      ensures repository.Valid() && repository.Synced() && repository.loaded == old(repository.loaded)
      ensures repository.View() == SettleTask(old(repository.View()), t, status, reason, now)
    {
      hide Repository.View, Repository.Valid, Repository.Synced, RunIdsOf, ScheduleIdsOf, ClosedTask, ClosedSchedule,
           TouchedSchedule;
      var task := repository.GetWorkTask(t);
      var schedules := repository.ListWorkSchedules(t);
      if task.None? {
        return;
      }
      var runs := repository.ListWorkRuns(t);
      var schedule: Option<Schedule> := None;
      if schedules != [] {
        schedule := repository.GetWorkSchedule(schedules[0]);
      }
      var count := if schedule.Some? then Max(schedule.value.runCount, |runs|) else |runs|;
      var oneShot := schedule.Some? && schedule.value.kind == ScheduledOnce;
      if schedule.None? {
        oneShot := SomeCreatedAt(repository, runs, task.value.origin.createdAt);
      }
      SettledKeepsPlaces(task.value, schedule, status, reason, count, now);
      if oneShot || (schedule.Some? && schedule.value.maxRuns.Some? && count >= schedule.value.maxRuns.value) {
        StoreBoth(repository, t, ClosedTask(task.value, status, reason, now), schedules,
              if schedule.Some? then Some(ClosedSchedule(schedule.value, count, now)) else None);
      } else {
        StoreBoth(repository, t, task.value.(updatedAt := now), schedules,
              if schedule.Some? then Some(TouchedSchedule(schedule.value, count, now)) else None);
      }
    }

    /** Updates a task and the first of its schedules. */
    method StoreBoth(repository: Repository, t: Id, task: Task, schedules: seq<Id>, schedule: Option<Schedule>)
      requires repository.Valid() && repository.Synced() && MayUpdateTask(repository.View(), t, task)
      requires schedule.Some? ==> schedules != [] && MayUpdateSchedule(repository.View(), schedules[0], schedule.value)
      modifies repository
      ensures repository.Valid() && repository.Synced() && repository.loaded == old(repository.loaded)
      ensures var w1 := old(repository.View()).(tasks := old(repository.View()).tasks[t := task]);
              repository.View() == if schedule.None? then w1
                                   else w1.(schedules := w1.schedules[schedules[0] := schedule.value])
    {
      hide Repository.View, Repository.Valid, Repository.Synced;
      repository.UpdateWorkTask(t, task);
      if schedule.Some? {
        repository.UpdateWorkSchedule(schedules[0], schedule.value);
      }
    }

    method MoveWorkRun(input: MoveInput, now: Time) returns (result: Result<Id, Error>)
      requires BooksOk(db.store.work)
      modifies db
      ensures Effect(db.store, result) == Worked(old(db.store), MoveRun(old(db.store.work), input, now))
    {
      hide BooksOk, Repository.View, Repository.Valid, Repository.Synced, MovedRun, MoveError;
      ghost var w := db.store.work;
      BooksGrant(w);
      var repository := new Repository(db.store.work);
      var run := repository.GetWorkRun(input.run);
      if run.None? {
        return Err(NotFound);
      }
      if MoveError(run.value, input).Some? {
        return Err(MoveError(run.value, input).value);
      }
      MovedKeepsPlace(run.value, input, now);
      repository.UpdateWorkRun(input.run, MovedRun(run.value, input, now));
      var who := Normalized(Some(input.actor));
      if who.None? {
        Close(repository);
        return Err(TextRequired);
      }
      var _ := Log(repository, Event(input.run, now, who.value, EventTypeFor(input.status),
                                     SummaryOr(input.summary, "Moved WorkRun.")));
      if IsTerminal(input.status) {
        Settle(repository, run.value.task, input.status, Normalized(input.reason), now);
      }
      Close(repository);
      return Ok(input.run);
    }

    // -------------------------------------------------------------- archiveWorkTask, restoreWorkTask

    method ArchiveWorkTask(t: Id, actor: string, reason: Option<string>, now: Time) returns (result: Result<Id, Error>)
      requires BooksOk(db.store.work)
      modifies db
      ensures Effect(db.store, result) == Worked(old(db.store), ArchiveTask(old(db.store.work), t, actor, reason, now))
    {
      hide BooksOk, ArchivedTask, Repository.View, Repository.Valid, Repository.Synced;
      BooksGrant(db.store.work);
      var who := Normalized(Some(actor));
      if who.None? {
        return Err(TextRequired);
      }
      var repository := new Repository(db.store.work);
      var task := repository.GetWorkTask(t);
      if task.None? {
        return Err(NotFound);
      }
      if task.value.status == Archived {
        return Ok(t);
      }
      if task.value.status == Active {
        return Err(CannotArchive);
      }
      ArchivingKeepsWording(task.value, who.value, Normalized(reason), now);
      repository.UpdateWorkTask(t, ArchivedTask(task.value, who.value, Normalized(reason), now));
      Close(repository);
      return Ok(t);
    }

    method RestoreWorkTask(t: Id, actor: string, now: Time) returns (result: Result<Id, Error>)
      requires BooksOk(db.store.work)
      modifies db
      ensures Effect(db.store, result) == Worked(old(db.store), RestoreTask(old(db.store.work), t, actor, now))
    {
      hide BooksOk, StatusBeforeArchive, Repository.View, Repository.Valid, Repository.Synced;
      BooksGrant(db.store.work);
      if Normalized(Some(actor)).None? {
        return Err(TextRequired);
      }
      var repository := new Repository(db.store.work);
      var task := repository.GetWorkTask(t);
      if task.None? {
        return Err(NotFound);
      }
      if task.value.status != Archived {
        return Ok(t);
      }
      repository.UpdateWorkTask(t, task.value.(status := StatusBeforeArchive(task.value), updatedAt := now));
      Close(repository);
      return Ok(t);
    }

    // -------------------------------------------------------------- recordWorkRunEvent

    method RecordWorkRunEvent(r: Id, actor: string, eventType: string, summary: string, now: Time)
      returns (result: Result<Id, Error>)
      requires BooksOk(db.store.work)
      modifies db
      ensures Effect(db.store, result) == Worked(old(db.store),
                                                 RecordEvent(old(db.store.work), r, actor, eventType, summary, now))
    {
      hide BooksOk, Repository.View, Repository.Valid, Repository.Synced;
      BooksGrant(db.store.work);
      var repository := new Repository(db.store.work);
      var run := repository.GetWorkRun(r);
      if run.None? {
        return Err(NotFound);
      }
      var who, kind, text := Normalized(Some(actor)), Normalized(Some(eventType)), Normalized(Some(summary));
      if who.None? || kind.None? || text.None? {
        return Err(TextRequired);
      }
      var e := Log(repository, Event(r, now, who.value, kind.value, text.value));
      Close(repository);
      return Ok(e);
    }
  }

  // ---------------------------------------------------------------- obligations at the call sites

  /** The schedules with those in the list canceled. */
  function CanceledAmong(schedules: map<Id, Schedule>, ids: seq<Id>, reason: string, now: Time): map<Id, Schedule> {
    map s | s in schedules :: if s in ids then CanceledSchedule(schedules[s], reason, now) else schedules[s]
  }

  lemma CanceledOneMore(schedules: map<Id, Schedule>, ids: seq<Id>, s: Id, reason: string, now: Time)
    requires s in schedules
    ensures var before, after := CanceledAmong(schedules, ids, reason, now),
            CanceledAmong(schedules, ids + [s], reason, now);
            after == before[s := CanceledSchedule(before[s], reason, now)]
  {
  }

  lemma CanceledAmongIsOfTask(w: Tables, t: Id, reason: string, now: Time)
    requires forall s :: s in w.schedules ==> s < w.next
    ensures CanceledAmong(w.schedules, ScheduleIdsOf(w.schedules, t, w.next), reason,
                          now) == CancelSchedules(w.schedules, t, reason, now)
  {
    ScheduleIdsComplete(w.schedules, t, w.next);
  }

  lemma SettledKeepsPlaces(task: Task, schedule: Option<Schedule>, status: RunStatus, reason: Option<string>,
                           count: nat, now: Time)
    ensures ClosedTask(task, status, reason, now).origin == task.origin
            && ClosedTask(task, status, reason, now).revision == task.revision
    ensures schedule.Some? ==>
              var closed, touched := ClosedSchedule(schedule.value, count, now),
                TouchedSchedule(schedule.value, count, now);
              && closed.task == touched.task == schedule.value.task
              && closed.createdAt == touched.createdAt == schedule.value.createdAt
              && ScheduleCheck(closed) && (ScheduleCheck(schedule.value) ==> ScheduleCheck(touched))
  {
  }

  lemma MovedKeepsPlace(run: Run, input: MoveInput, now: Time)
    ensures SamePlace(run, MovedRun(run, input, now))
  {
  }

  lemma FreshTask(w: Tables, task: Task)
    requires Grants(w) && task.revision == 1
    ensures w.next !in w.tasks && MayInsertTask(w, w.next, task) && Grants(InsertTask(w, task))
    ensures MayInsertRevision(w.(tasks := w.tasks[w.next := task]), InitialRevision(w.next),
                              FirstRevision(w.next, task))
  {
  }

  lemma AdvancedIsChecked(schedule: Schedule, incremented: Schedule, slot: Time, now: Time)
    requires NeedsSchedule(schedule.kind) && schedule.kind == incremented.kind
             && schedule.intervalMs == incremented.intervalMs
    requires schedule.kind == Recurring ==> schedule.intervalMs.Some? && schedule.intervalMs.value > 0
    ensures var advanced := AdvanceSchedule(incremented, slot, now);
            ScheduleCheck(advanced) && advanced.task == incremented.task && advanced.createdAt == incremented.createdAt
  {
  }

  lemma RevisionIsNew(w: Tables, input: ReviseInput, now: Time)
    requires Grants(w) && input.task in w.tasks && RevisedTask(w.tasks[input.task], input, now).Ok?
    ensures var revised := RevisedTask(w.tasks[input.task], input, now).value;
            && revised == RevisedTaskRow(w.tasks[input.task], revised) && revised.updatedAt == now
            && revised.revision > 0
            && LaterRevision(w.next) !in w.revisions && !HasNumber(w.revisions, input.task, revised.revision)
  {
  }

  lemma LiveScheduleHasASlot(w: Tables, s: Id)
    requires BooksOk(w) && s in w.schedules
    ensures IsLive(w.schedules[s].status) ==> w.schedules[s].nextRunAt.Some?
    ensures NeedsSchedule(w.schedules[s].kind)
    ensures w.schedules[s].kind == Recurring ==> w.schedules[s].intervalMs.Some? && w.schedules[s].intervalMs.value > 0
  {
    hide HistoryOk, RunRevisionsOk, TextsOk, CountsOk, IdleOk, ArchivesOk, OneShotsOk, Slots;
    assert ScheduleFits(w.schedules[s], Slots(w.runs, w.schedules[s].task, w.next));
  }
}
