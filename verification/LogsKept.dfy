/** Every operation of WorkService keeps the logs of all runs in agreement with their statuses and
    fields; the two that can leave half of their effect behind do so exactly when their actor is given. */
module LogsKept {
  import opened Prelude
  import opened WorkDomain
  import opened WorkOperations
  import opened RunLog

  lemma InsertedRunIsBorn(w: Tables, run: Run, event: Event)
    requires LogsOk(w) && run.status == Queued && FieldsAgree(run)
    requires event.run == w.next && event.eventType == "created"
    ensures LogsOk(LogEvent(InsertRun(w, run), event))
  {
    var counted := CountRunOf(w, run.task, run.createdAt);
    LogsOkFrame(w, counted);
    LogsOkBorn(counted, run, event);
  }

  lemma CreateWorkKeepsLogs(w: Tables, input: CreateInput, directory: set<string>, now: Time)
    requires LogsOk(w)
    ensures LogsOk(CreateWork(w, input, directory, now).work)
  {
    if CreateWork(w, input, directory, now).result.Ok? {
      var task := NewTask(input, now).value;
      var w1 := InsertTask(w, task);
      LogsOkFrame(w, w1);
      if NeedsSchedule(input.kind) {
        LogsOkFrame(w1, CreateWork(w, input, directory, now).work);
      } else {
        var run := QueuedRun(w.next, task.owner, task.revision, ByImmediate, Some(now), now);
        InsertedRunIsBorn(w1, run, Event(w1.next, now, task.origin.createdBy, "created", "Created WorkRun."));
      }
    }
  }

  /** A run without its first event is one that the log knows nothing of. */
  lemma UnloggedRunBreaksLogs(w: Tables, run: Run)
    requires LogsOk(w)
    ensures !LogsOk(InsertRun(w, run))
  {
    ReplayGap(w.events, w.next, 0, w.next + 1);
    assert !LogAgrees(InsertRun(w, run), w.next);
  }

  /** The call gets as far as queuing a run: the schedule is enabled and due, its task's owner is there, and
      no run stands for the slot yet. */
  predicate QueuesARun(w: Tables, s: Id, directory: set<string>, now: Time) {
    && s in w.schedules && w.schedules[s].status == Enabled
    && w.schedules[s].nextRunAt.Some? && w.schedules[s].nextRunAt.value <= now
    && w.schedules[s].task in w.tasks && w.tasks[w.schedules[s].task].owner in directory
    && FirstFilling(w.runs, RunIdsOf(w.runs, w.schedules[s].task, w.next), w.schedules[s].task,
                    w.schedules[s].nextRunAt.value).None?
  }

  /** A due run is logged exactly when the call names an actor, or queues no run. */
  lemma CreateDueRunKeepsLogs(w: Tables, s: Id, actor: string, directory: set<string>, now: Time)
    requires LogsOk(w)
    ensures var after := CreateDueRun(w, s, actor, directory, now);
            LogsOk(after.work) <==> NonBlank(actor) || !QueuesARun(w, s, directory, now)
  {
    hide EventsOk, ScheduleOf, AdvanceSchedule, RunIdsOf, FirstFilling;
    var after := CreateDueRun(w, s, actor, directory, now);
    if QueuesARun(w, s, directory, now) {
      var schedule := w.schedules[s];
      var t, slot := schedule.task, schedule.nextRunAt.value;
      var trigger := if schedule.kind == Recurring then ByRecurrence else BySchedule;
      var run := QueuedRun(t, w.tasks[t].owner, w.tasks[t].revision, trigger, Some(slot), now);
      match Normalized(Some(actor))
      case None =>
        UnloggedRunBreaksLogs(w, run);
      case Some(who) =>
        var event := Event(w.next, now, who, "created", "Created WorkRun from due WorkSchedule.");
        InsertedRunIsBorn(w, run, event);
        LogsOkFrame(LogEvent(InsertRun(w, run), event), after.work);
    }
  }

  lemma RetryRunKeepsLogs(w: Tables, r: Id, actor: string, assignee: Option<string>, directory: set<string>, now: Time)
    requires LogsOk(w)
    ensures LogsOk(RetryRun(w, r, actor, assignee, directory, now).work)
  {
    var after := RetryRun(w, r, actor, assignee, directory, now);
    if after.result.Ok? {
      var t, who := w.runs[r].task, Normalized(Some(actor)).value;
      var member := Normalized(OrElse(Normalized(assignee), Some(w.runs[r].assignee))).value;
      var run := QueuedRun(t, member, w.tasks[t].revision, ByRetry, w.runs[r].scheduledFor, now);
      var remark := Event(r, now, who, "retry_created", "Created retry WorkRun.");
      var birth := Event(w.next, now, who, "created", "Created as a retry of failed WorkRun.");
      RetryLogsBoth(w, run, remark, birth);
      LogsOkFrame(LogEvent(LogEvent(InsertRun(w, run), remark), birth), after.work);
    }
  }

  /** The remark on the failed run comes between the new run and its own first event. */
  lemma RetryLogsBoth(w: Tables, run: Run, remark: Event, birth: Event)
    requires LogsOk(w) && run.status == Queued && FieldsAgree(run)
    requires remark.run in w.runs && remark.eventType == "retry_created"
    requires birth.run == w.next && birth.eventType == "created"
    ensures LogsOk(LogEvent(LogEvent(InsertRun(w, run), remark), birth))
  {
    var w1 := InsertRun(w, run);
    var w2 := LogEvent(w1, remark);
    var w3 := LogEvent(w2, birth);
    forall q | q in w3.runs ensures LogAgrees(w3, q) {
      ReplayAppend(w2, birth, q);
      ReplayAppend(w1, remark, q);
      ReplayGap(w.events, q, w.next, w.next + 1);
      if q == w.next {
        ReplayGap(w.events, q, 0, w.next);
      } else {
        assert LogAgrees(w, q);
      }
    }
  }

  lemma ApplyRevisionKeepsLogs(w: Tables, t: Id, task: Task, source: Option<Id>, actor: string, reason: string,
                               now: Time)
    requires LogsOk(w) && (source.Some? ==> source.value in w.runs)
    ensures LogsOk(ApplyRevision(w, t, task, source, actor, reason, now))
  {
    hide EventsOk, LogAgrees, Replay, StatusOfEvent;
    var w1 := ApplyRevision(w, t, task, None, actor, reason, now);
    LogsOkFrame(w, w1);
    if source.Some? {
      var r := source.value;
      var plain := ApplyRevision(w, t, task, source, actor, reason, now).(next := w1.next, events := w1.events);
      LogsOkFrame(w1, plain);
      RevisingIsARemark();
      LogsOkRemark(plain, Event(r, now, actor, "task_revised", "WorkTask objective revised."));
    }
  }

  lemma RevisingIsARemark()
    ensures StatusOfEvent("task_revised") == None
  {
    assert "task_revised"[0] == 't';
  }

  lemma ReviseTaskKeepsLogs(w: Tables, input: ReviseInput, now: Time)
    requires LogsOk(w)
    ensures LogsOk(ReviseTask(w, input, now).work)
  {
    var after := ReviseTask(w, input, now);
    if after.result.Ok? {
      ApplyRevisionKeepsLogs(w, input.task, RevisedTask(w.tasks[input.task], input, now).value, input.sourceRun,
                             Normalized(Some(input.actor)).value, Normalized(Some(input.reason)).value, now);
    }
  }

  lemma MoveScheduleKeepsLogs(w: Tables, s: Id, move: ScheduleMove, reason: Option<string>, now: Time)
    requires LogsOk(w)
    ensures LogsOk(MoveSchedule(w, s, move, reason, now).work)
  {
    LogsOkFrame(w, MoveSchedule(w, s, move, reason, now).work);
  }

  lemma {:induction false} CancelRunsKeepsLogs(w: Tables, ids: seq<Id>, actor: string, reason: string, now: Time)
    requires LogsOk(w) && NonBlank(reason)
    requires forall i :: 0 <= i < |ids| ==> ids[i] in w.runs
    ensures LogsOk(CancelRuns(w, ids, actor, reason, now))
  {
    if ids != [] {
      var before := CancelRuns(w, ids[..|ids| - 1], actor, reason, now);
      CancelRunsKeepsLogs(w, ids[..|ids| - 1], actor, reason, now);
      CancelOneRunKeepsLogs(before, ids[|ids| - 1], actor, reason, now);
    }
  }

  lemma CancelOneRunKeepsLogs(w: Tables, r: Id, actor: string, reason: string, now: Time)
    requires LogsOk(w) && NonBlank(reason) && r in w.runs
    ensures LogsOk(CancelOneRun(w, r, actor, reason, now))
  {
    hide EventsOk, LogAgrees, Replay;
    if !IsTerminal(w.runs[r].status) {
      LogsOkStep(w, r, CanceledRun(w.runs[r], reason, now),
                 Event(r, now, actor, "canceled", "Canceled WorkRun because its WorkTask was canceled."));
    }
  }

  lemma CancelTaskKeepsLogs(w: Tables, t: Id, actor: string, reason: Option<string>, now: Time)
    requires LogsOk(w)
    ensures LogsOk(CancelTask(w, t, actor, reason, now).work)
  {
    if CancelTask(w, t, actor, reason, now).result.Ok? {
      var why := Normalized(reason);
      var w1 := w.(tasks := w.tasks[t := CanceledTask(w.tasks[t], why, now)],
                   schedules := CancelSchedules(w.schedules, t, why.value, now));
      LogsOkFrame(w, w1);
      CancelRunsKeepsLogs(w1, RunIdsOf(w.runs, t, w.next), Normalized(Some(actor)).value, why.value, now);
    }
  }

  lemma ArchiveAndRestoreKeepLogs(w: Tables, t: Id, actor: string, reason: Option<string>, now: Time)
    requires LogsOk(w)
    ensures LogsOk(ArchiveTask(w, t, actor, reason, now).work)
    ensures LogsOk(RestoreTask(w, t, actor, now).work)
  {
    hide ArchivedTask, StatusBeforeArchive, EventsOk, FieldsAgree, LogAgrees;
    LogsOkFrame(w, ArchiveTask(w, t, actor, reason, now).work);
    LogsOkFrame(w, RestoreTask(w, t, actor, now).work);
  }

  /** A move that passes the checks leaves every field of the run as its new status wants it. */
  lemma MovedRunAgrees(run: Run, input: MoveInput, now: Time)
    requires FieldsAgree(run) && MoveError(run, input).None?
    ensures FieldsAgree(MovedRun(run, input, now)) && MovedRun(run, input, now).status == input.status
    ensures input.status in AllowedRunMoves(run.status) && input.status != Queued
    ensures StatusOfEvent(EventTypeFor(input.status)) == Some(input.status)
  {
  }

  /** moveWorkRun keeps the logs exactly when it names an actor, is turned down, or changes no status. */
  lemma MoveRunKeepsLogs(w: Tables, input: MoveInput, now: Time)
    requires LogsOk(w)
    ensures LogsOk(MoveRun(w, input, now).work)
            <==> || NonBlank(input.actor)
                 || input.run !in w.runs
                 || MoveError(w.runs[input.run], input).Some?
                 || input.status == w.runs[input.run].status
  {
    hide EventsOk, ScheduleOf, SettledTask, SettledSchedule, MovedRun, FieldsAgree, MoveError;
    if input.run in w.runs && MoveError(w.runs[input.run], input).None? {
      var run := w.runs[input.run];
      var moved := MovedRun(run, input, now);
      MovedRunAgrees(run, input, now);
      var w1 := w.(runs := w.runs[input.run := moved]);
      match Normalized(Some(input.actor))
      case None =>
        if input.status == run.status { LogsOkFrame(w, w1); }
        else { LogsOkNeedsTheEvent(w, input.run, moved); }
      case Some(actor) =>
        var event := Event(input.run, now, actor, EventTypeFor(input.status),
                           SummaryOr(input.summary, "Moved WorkRun."));
        LogsOkStep(w, input.run, moved, event);
        LogsOkFrame(LogEvent(w1, event), MoveRun(w, input, now).work);
    }
  }

  /** recordWorkRunEvent keeps the logs exactly when its event is a remark, repeats "blocked" on a
      blocked run, or is turned down. */
  lemma RecordEventKeepsLogs(w: Tables, r: Id, actor: string, eventType: string, summary: string, now: Time)
    requires LogsOk(w)
    ensures var after := RecordEvent(w, r, actor, eventType, summary, now);
            LogsOk(after.work)
            <==> || r !in w.runs || !NonBlank(actor) || !NonBlank(eventType) || !NonBlank(summary)
                 || StatusOfEvent(Normalized(Some(eventType)).value) == None
                 || (StatusOfEvent(Normalized(Some(eventType)).value) == Some(Blocked) && w.runs[r].status == Blocked)
  {
    var after := RecordEvent(w, r, actor, eventType, summary, now);
    if after.result.Ok? {
      LogsOkRemark(w, Event(r, now, Normalized(Some(actor)).value, Normalized(Some(eventType)).value,
                            Normalized(Some(summary)).value));
    }
  }
}
