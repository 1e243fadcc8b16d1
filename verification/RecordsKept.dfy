/** Every operation of WorkService keeps references, texts, archives and the revision history. */
module RecordsKept {
  import opened Prelude
  import opened WorkDomain
  import opened WorkOperations
  import opened WorkInvariants

  // ---------------------------------------------------------------- progress that changes no record's identity

  ghost predicate SameTasks(a: map<Id, Task>, b: map<Id, Task>) {
    && a.Keys == b.Keys
    && (forall t :: t in a ==> SameWording(a[t], b[t]))
  }

  predicate SameWording(a: Task, b: Task) {
    && a.origin == b.origin && a.owner == b.owner && a.title == b.title && a.description == b.description
    && a.acceptanceCriteria == b.acceptanceCriteria && a.revision == b.revision
  }

  ghost predicate SameSchedules(a: map<Id, Schedule>, b: map<Id, Schedule>) {
    && a.Keys == b.Keys
    && (forall s :: s in a ==> a[s].task == b[s].task && a[s].kind == b[s].kind)
  }

  ghost predicate SameRuns(a: map<Id, Run>, b: map<Id, Run>) {
    && a.Keys == b.Keys
    && (forall r :: r in a ==> SamePlace(a[r], b[r]))
  }

  predicate SamePlace(a: Run, b: Run) {
    && a.task == b.task && a.assignee == b.assignee && a.taskRevision == b.taskRevision
    && a.triggeredBy == b.triggeredBy && a.scheduledFor == b.scheduledFor && a.createdAt == b.createdAt
  }

  /** Two tables that differ only in how far the work has come. */
  ghost predicate Progress(w: Tables, w': Tables) {
    && w.next <= w'.next && w'.revisions == w.revisions
    && SameTasks(w.tasks, w'.tasks) && SameSchedules(w.schedules, w'.schedules) && SameRuns(w.runs, w'.runs)
    && EventsOk(w')
  }

  lemma ProgressKeepsRefs(w: Tables, w': Tables)
    requires RefsOk(w) && Progress(w, w')
    ensures RefsOk(w')
  {
  }

  lemma ProgressKeepsHistory(w: Tables, w': Tables)
    requires HistoryOk(w) && SameTasks(w.tasks, w'.tasks) && w'.revisions == w.revisions
    ensures HistoryOk(w')
  {
    forall t, n | t in w'.tasks && 1 <= n <= w'.tasks[t].revision ensures HasRevision(w'.revisions, t, n) {
      assert HasRevision(w.revisions, t, n);
    }
  }

  lemma ProgressKeepsRunRevisions(w: Tables, w': Tables)
    requires RunRevisionsOk(w) && SameTasks(w.tasks, w'.tasks) && SameRuns(w.runs, w'.runs)
    ensures RunRevisionsOk(w')
  {
  }

  lemma ProgressKeepsTexts(w: Tables, w': Tables)
    requires TextsOk(w) && SameTasks(w.tasks, w'.tasks) && SameRuns(w.runs, w'.runs)
    ensures TextsOk(w')
  {
  }

  /** The promises that no listing of runs is needed for. */
  ghost predicate RecordsOk(w: Tables) {
    RefsOk(w) && EventsOk(w) && HistoryOk(w) && RunRevisionsOk(w) && TextsOk(w)
  }

  lemma ProgressKeepsRecords(w: Tables, w': Tables)
    requires RecordsOk(w) && Progress(w, w')
    ensures RecordsOk(w')
  {
    ProgressKeepsRefs(w, w');
    ProgressKeepsHistory(w, w');
    ProgressKeepsRunRevisions(w, w');
    ProgressKeepsTexts(w, w');
  }

  // ---------------------------------------------------------------- steps that are only progress

  lemma NoProgress(w: Tables)
    requires EventsOk(w)
    ensures Progress(w, w)
  {
  }

  lemma OneTaskIsProgress(w: Tables, t: Id, task: Task)
    requires EventsOk(w) && t in w.tasks && SameWording(w.tasks[t], task)
    ensures Progress(w, w.(tasks := w.tasks[t := task]))
  {
  }

  lemma OneScheduleIsProgress(w: Tables, s: Id, schedule: Schedule)
    requires EventsOk(w) && s in w.schedules
    requires schedule.task == w.schedules[s].task && schedule.kind == w.schedules[s].kind
    ensures Progress(w, w.(schedules := w.schedules[s := schedule]))
  {
  }

  lemma OneRunIsProgress(w: Tables, r: Id, run: Run)
    requires EventsOk(w) && r in w.runs && SamePlace(w.runs[r], run)
    ensures Progress(w, w.(runs := w.runs[r := run]))
  {
  }

  lemma ProgressIsTransitive(a: Tables, b: Tables, c: Tables)
    requires Progress(a, b) && Progress(b, c)
    ensures Progress(a, c)
  {
  }

  lemma LogEventIsProgress(w: Tables, event: Event)
    requires EventsOk(w) && event.run in w.runs
    ensures Progress(w, LogEvent(w, event))
  {
  }

  lemma CountRunIsProgress(w: Tables, t: Id, now: Time)
    requires EventsOk(w)
    ensures Progress(w, CountRunOf(w, t, now))
  {
    hide Progress, ScheduleOf;
    NoProgress(w);
    if s :| ScheduleOf(w, t) == Some(s) { OneScheduleIsProgress(w, s, CountRun(w.schedules[s], now)); }
  }

  lemma SettleTaskIsProgress(w: Tables, t: Id, status: RunStatus, reason: Option<string>, now: Time)
    requires EventsOk(w)
    ensures Progress(w, SettleTask(w, t, status, reason, now))
  {
    if IsTerminal(status) && t in w.tasks {
      SettlingKeepsPlaces(w, t, status, reason, now);
      SettledIsProgress(w, t, SettledTask(w, t, status, reason, now), ScheduleOf(w, t), now);
    }
  }

  lemma SettlingKeepsPlaces(w: Tables, t: Id, status: RunStatus, reason: Option<string>, now: Time)
    requires t in w.tasks
    ensures SameWording(w.tasks[t], SettledTask(w, t, status, reason, now))
    ensures forall schedule :: SettledSchedule(w, t, schedule, now).task == schedule.task
                               && SettledSchedule(w, t, schedule, now).kind == schedule.kind
  {
  }

  lemma SettledIsProgress(w: Tables, t: Id, task: Task, s: Option<Id>, now: Time)
    requires EventsOk(w) && t in w.tasks && SameWording(w.tasks[t], task) && (s.Some? ==> s.value in w.schedules)
    requires forall schedule :: SettledSchedule(w, t, schedule, now).task == schedule.task
                                && SettledSchedule(w, t, schedule, now).kind == schedule.kind
    ensures var w1 := w.(tasks := w.tasks[t := task]);
            Progress(w, if s.None? then w1
                        else w1.(schedules := w1.schedules[s.value := SettledSchedule(w, t, w.schedules[s.value],
                                                                                      now)]))
  {
    hide SettledSchedule;
    var w1 := w.(tasks := w.tasks[t := task]);
    OneTaskIsProgress(w, t, task);
    if s.Some? {
      var schedule := SettledSchedule(w, t, w.schedules[s.value], now);
      OneScheduleIsProgress(w1, s.value, schedule);
      ProgressIsTransitive(w, w1, w1.(schedules := w1.schedules[s.value := schedule]));
    }
  }

  lemma MoveRunIsProgress(w: Tables, input: MoveInput, now: Time)
    requires EventsOk(w)
    ensures Progress(w, MoveRun(w, input, now).work)
  {
    if input.run in w.runs && MoveError(w.runs[input.run], input).None? {
      var run := w.runs[input.run];
      var w1 := w.(runs := w.runs[input.run := MovedRun(run, input, now)]);
      assert Progress(w, w1);
      match Normalized(Some(input.actor))
      case None =>
      case Some(actor) =>
        var event := Event(input.run, now, actor, EventTypeFor(input.status),
                           SummaryOr(input.summary, "Moved WorkRun."));
        LogEventIsProgress(w1, event);
        SettleTaskIsProgress(LogEvent(w1, event), run.task, input.status, Normalized(input.reason), now);
    }
  }

  lemma MoveScheduleIsProgress(w: Tables, s: Id, move: ScheduleMove, reason: Option<string>, now: Time)
    requires EventsOk(w)
    ensures Progress(w, MoveSchedule(w, s, move, reason, now).work)
  {
    var after := MoveSchedule(w, s, move, reason, now).work;
    if after != w {
      OneScheduleIsProgress(w, s, after.schedules[s]);
      var w1 := w.(schedules := after.schedules);
      var t := w.schedules[s].task;
      if after.tasks != w.tasks {
        OneTaskIsProgress(w1, t, after.tasks[t]);
        ProgressIsTransitive(w, w1, after);
      }
    }
  }

  lemma {:induction false} CancelRunsIsProgress(w: Tables, ids: seq<Id>, actor: string, reason: string, now: Time)
    requires EventsOk(w)
    requires forall i :: 0 <= i < |ids| ==> ids[i] in w.runs
    ensures Progress(w, CancelRuns(w, ids, actor, reason, now))
  {
    if ids != [] {
      CancelRunsIsProgress(w, ids[..|ids| - 1], actor, reason, now);
      CancelOneRunIsProgress(CancelRuns(w, ids[..|ids| - 1], actor, reason, now), ids[|ids| - 1], actor, reason, now);
    }
  }

  lemma CancelOneRunIsProgress(w: Tables, r: Id, actor: string, reason: string, now: Time)
    requires EventsOk(w) && r in w.runs
    ensures Progress(w, CancelOneRun(w, r, actor, reason, now))
  {
    var w1 := w.(runs := w.runs[r := CanceledRun(w.runs[r], reason, now)]);
    OneRunIsProgress(w, r, w1.runs[r]);
    LogEventIsProgress(w1, Event(r, now, actor, "canceled", "Canceled WorkRun because its WorkTask was canceled."));
  }

  lemma CancelTaskIsProgress(w: Tables, t: Id, actor: string, reason: Option<string>, now: Time)
    requires EventsOk(w)
    ensures Progress(w, CancelTask(w, t, actor, reason, now).work)
  {
    if CancelTask(w, t, actor, reason, now).result.Ok? {
      var why := Normalized(reason);
      var w1 := w.(tasks := w.tasks[t := CanceledTask(w.tasks[t], why, now)],
                   schedules := CancelSchedules(w.schedules, t, why.value, now));
      CanceledTaskIsProgress(w, t, why, now);
      hide Progress, CanceledTask, CancelSchedules, CancelRuns, RunIdsOf;
      CancelRunsIsProgress(w1, RunIdsOf(w.runs, t, w.next), Normalized(Some(actor)).value, why.value, now);
    }
  }

  lemma CanceledTaskIsProgress(w: Tables, t: Id, why: Option<string>, now: Time)
    requires EventsOk(w) && t in w.tasks && why.Some?
    ensures Progress(w, w.(tasks := w.tasks[t := CanceledTask(w.tasks[t], why, now)],
                           schedules := CancelSchedules(w.schedules, t, why.value, now)))
  {
  }

  lemma ArchivingKeepsWording(task: Task, actor: string, reason: Option<string>, now: Time)
    ensures SameWording(task, ArchivedTask(task, actor, reason, now))
  {
  }

  lemma ArchiveAndRestoreAreProgress(w: Tables, t: Id, actor: string, reason: Option<string>, now: Time)
    requires EventsOk(w)
    ensures Progress(w, ArchiveTask(w, t, actor, reason, now).work)
    ensures Progress(w, RestoreTask(w, t, actor, now).work)
  {
    hide ArchivedTask, StatusBeforeArchive;
    if t in w.tasks {
      var who, why := Normalized(Some(actor)), Normalized(reason);
      if who.Some? {
        ArchivingKeepsWording(w.tasks[t], who.value, why, now);
        OneTaskIsProgress(w, t, ArchivedTask(w.tasks[t], who.value, why, now));
      }
      OneTaskIsProgress(w, t, w.tasks[t].(status := StatusBeforeArchive(w.tasks[t]), updatedAt := now));
      OneTaskIsProgress(w, t, w.tasks[t]);
      assert w.tasks[t := w.tasks[t]] == w.tasks;
    }
  }

  lemma RecordEventIsProgress(w: Tables, r: Id, actor: string, eventType: string, summary: string, now: Time)
    requires EventsOk(w)
    ensures Progress(w, RecordEvent(w, r, actor, eventType, summary, now).work)
  {
    hide Progress, LogEvent;
    NoProgress(w);
    if RecordEvent(w, r, actor, eventType, summary, now).result.Ok? {
      LogEventIsProgress(w, Event(r, now, Normalized(Some(actor)).value, Normalized(Some(eventType)).value,
                                  Normalized(Some(summary)).value));
    }
  }

  // ---------------------------------------------------------------- new tasks and schedules

  lemma InsertTaskKeepsRefs(w: Tables, task: Task)
    requires RefsOk(w) && task.revision == 1
    ensures RefsOk(InsertTask(w, task))
  {
  }

  lemma HasRevisionStays(revisions: map<RevisionKey, Revision>, t: Id, n: nat, key: RevisionKey, revision: Revision)
    requires HasRevision(revisions, t, n) && key !in revisions
    ensures HasRevision(revisions[key := revision], t, n)
  {
    var k :| k in revisions && revisions[k].task == t && revisions[k].number == n;
    assert k in revisions[key := revision];
  }

  lemma InsertTaskKeepsHistory(w: Tables, task: Task)
    requires HistoryOk(w) && task.revision == 1
    requires forall t :: t in w.tasks ==> t != w.next
    requires forall k :: k in w.revisions ==> w.revisions[k].task in w.tasks
    requires InitialRevision(w.next) !in w.revisions
    ensures HistoryOk(InsertTask(w, task))
  {
    var w' := InsertTask(w, task);
    forall t, n | t in w'.tasks && 1 <= n <= w'.tasks[t].revision ensures HasRevision(w'.revisions, t, n) {
      if t == w.next {
        assert InitialRevision(t) in w'.revisions;
      } else {
        HasRevisionStays(w.revisions, t, n, InitialRevision(w.next), FirstRevision(w.next, task));
      }
    }
    hide HasRevision;
    assert NumberedOnce(w'.revisions);
    assert NeighboursDiffer(w'.revisions) by { hide SameText, SameTexts; }
  }

  lemma InsertTaskKeepsRest(w: Tables, task: Task)
    requires RefsOk(w) && RunRevisionsOk(w) && TextsOk(w)
    requires NonBlank(task.title) && NonBlank(task.acceptanceCriteria) && NonBlank(task.origin.createdBy)
             && NonBlank(task.owner)
    ensures RunRevisionsOk(InsertTask(w, task)) && TextsOk(InsertTask(w, task))
  {
    hide RefsOk, NonBlank;
    assert w.next !in w.tasks && forall r :: r in w.runs ==> w.runs[r].task in w.tasks by { RefsOfRuns(w); }
  }

  lemma RefsOfRuns(w: Tables)
    requires RefsOk(w)
    ensures w.next !in w.tasks && forall r :: r in w.runs ==> w.runs[r].task in w.tasks
  {
  }

  function InsertSchedule(w: Tables, schedule: Schedule): Tables {
    w.(next := w.next + 1, schedules := w.schedules[w.next := schedule])
  }

  lemma InsertScheduleKeepsRefs(w: Tables, schedule: Schedule)
    requires RefsOk(w) && schedule.task in w.tasks && NeedsSchedule(schedule.kind)
    requires forall s :: s in w.schedules ==> w.schedules[s].task != schedule.task
    ensures RefsOk(InsertSchedule(w, schedule))
  {
  }

  lemma InsertScheduleKeepsRecords(w: Tables, schedule: Schedule)
    requires RecordsOk(w) && schedule.task in w.tasks && NeedsSchedule(schedule.kind)
    requires forall s :: s in w.schedules ==> w.schedules[s].task != schedule.task
    ensures RecordsOk(InsertSchedule(w, schedule))
  {
    InsertScheduleKeepsRefs(w, schedule);
    ProgressKeepsHistory(w, InsertSchedule(w, schedule));
    ProgressKeepsRunRevisions(w, InsertSchedule(w, schedule));
    ProgressKeepsTexts(w, InsertSchedule(w, schedule));
  }

  // ---------------------------------------------------------------- new runs

  /** The tables with one run more, before its schedule counts it. */
  function WithRun(w: Tables, run: Run): Tables {
    w.(next := w.next + 1, runs := w.runs[w.next := run])
  }

  lemma WithRunKeepsRefs(w: Tables, run: Run)
    requires RefsOk(w) && run.task in w.tasks
    ensures RefsOk(WithRun(w, run))
  {
  }

  lemma WithRunKeepsRest(w: Tables, run: Run)
    requires RefsOk(w) && HistoryOk(w) && RunRevisionsOk(w) && TextsOk(w)
    requires run.task in w.tasks && run.taskRevision == w.tasks[run.task].revision && NonBlank(run.assignee)
    ensures RunRevisionsOk(WithRun(w, run)) && TextsOk(WithRun(w, run))
  {
  }

  lemma InsertRunKeepsRecords(w: Tables, run: Run)
    requires RecordsOk(w) && run.task in w.tasks && NonBlank(run.assignee)
    requires run.taskRevision == w.tasks[run.task].revision
    ensures RecordsOk(InsertRun(w, run))
  {
    hide RefsOk, HistoryOk, RunRevisionsOk, TextsOk, EventsOk, Progress;
    var counted := CountRunOf(w, run.task, run.createdAt);
    CountRunIsProgress(w, run.task, run.createdAt);
    ProgressKeepsRecords(w, counted);
    WithRunKeepsRecords(counted, run);
  }

  lemma WithRunKeepsRecords(w: Tables, run: Run)
    requires RecordsOk(w)
    requires run.task in w.tasks && run.taskRevision == w.tasks[run.task].revision && NonBlank(run.assignee)
    ensures RecordsOk(WithRun(w, run))
  {
    WithRunKeepsRefs(w, run);
    WithRunKeepsRest(w, run);
    ProgressKeepsHistory(w, WithRun(w, run));
  }

  /** A new run and the event that says so. */
  lemma BirthKeepsRecords(w: Tables, run: Run, event: Event)
    requires RecordsOk(w) && run.task in w.tasks && NonBlank(run.assignee)
    requires run.taskRevision == w.tasks[run.task].revision && event.run == w.next
    ensures RecordsOk(LogEvent(InsertRun(w, run), event))
  {
    hide RefsOk, HistoryOk, RunRevisionsOk, TextsOk, Progress;
    InsertRunKeepsRecords(w, run);
    LogEventIsProgress(InsertRun(w, run), event);
    ProgressKeepsRecords(InsertRun(w, run), LogEvent(InsertRun(w, run), event));
  }

  // ---------------------------------------------------------------- the operations that insert records

  /** No record refers to an id that is still to be handed out. */
  lemma NothingPointsAhead(w: Tables)
    requires RecordsOk(w)
    ensures forall s :: s in w.schedules ==> w.schedules[s].task != w.next
    ensures w.next !in w.tasks && InitialRevision(w.next) !in w.revisions
  {
    hide HistoryOk, RunRevisionsOk, TextsOk;
  }

  lemma InsertTaskKeepsRecords(w: Tables, task: Task)
    requires RecordsOk(w) && task.revision == 1
    requires NonBlank(task.title) && NonBlank(task.acceptanceCriteria) && NonBlank(task.origin.createdBy)
             && NonBlank(task.owner)
    ensures RecordsOk(InsertTask(w, task))
  {
    hide HistoryOk, RunRevisionsOk, TextsOk;
    InsertTaskKeepsRefs(w, task);
    InsertTaskKeepsHistory(w, task);
    InsertTaskKeepsRest(w, task);
  }

  lemma CreateWorkKeepsRecords(w: Tables, input: CreateInput, directory: set<string>, now: Time)
    requires RecordsOk(w)
    ensures RecordsOk(CreateWork(w, input, directory, now).work)
  {
    hide RecordsOk, InsertRun, ScheduleOf;
    var after := CreateWork(w, input, directory, now);
    if after.result.Ok? {
      var task := NewTask(input, now).value;
      var w1 := InsertTask(w, task);
      InsertTaskKeepsRecords(w, task);
      if NeedsSchedule(input.kind) {
        NothingPointsAhead(w);
        InsertScheduleKeepsRecords(w1, NewSchedule(input, w.next, now));
      } else {
        var run := QueuedRun(w.next, task.owner, task.revision, ByImmediate, Some(now), now);
        BirthKeepsRecords(w1, run, Event(w1.next, now, task.origin.createdBy, "created", "Created WorkRun."));
      }
    }
  }

  lemma CreateDueRunKeepsRecords(w: Tables, s: Id, actor: string, directory: set<string>, now: Time)
    requires RecordsOk(w)
    ensures RecordsOk(CreateDueRun(w, s, actor, directory, now).work)
  {
    var after := CreateDueRun(w, s, actor, directory, now);
    hide RefsOk, HistoryOk, RunRevisionsOk, Progress;
    if after.work != w {
      var schedule := w.schedules[s];
      var t, slot := schedule.task, schedule.nextRunAt.value;
      var trigger := if schedule.kind == Recurring then ByRecurrence else BySchedule;
      var run := QueuedRun(t, w.tasks[t].owner, w.tasks[t].revision, trigger, Some(slot), now);
      InsertRunKeepsRecords(w, run);
      match Normalized(Some(actor))
      case None =>
      case Some(who) =>
        var event := Event(w.next, now, who, "created", "Created WorkRun from due WorkSchedule.");
        var w2 := LogEvent(InsertRun(w, run), event);
        BirthKeepsRecords(w, run, event);
        AdvanceIsProgress(w2, s, slot, now);
        ProgressKeepsRecords(w2, after.work);
    }
  }

  lemma AdvanceIsProgress(w: Tables, s: Id, slot: Time, now: Time)
    requires EventsOk(w) && s in w.schedules
    ensures Progress(w, w.(schedules := w.schedules[s := AdvanceSchedule(w.schedules[s], slot, now)]))
  {
  }

  lemma AddRetryKeepsRecords(w: Tables, r: Id, run: Run, actor: string, now: Time)
    requires RecordsOk(w) && r in w.runs && run.task in w.tasks && NonBlank(run.assignee)
    requires run.taskRevision == w.tasks[run.task].revision
    ensures RecordsOk(AddRetry(w, r, run, actor, now))
  {
    hide RefsOk, HistoryOk, RunRevisionsOk, Progress;
    var w1 := InsertRun(w, run);
    InsertRunKeepsRecords(w, run);
    assert EventsOk(w1) && w1.runs == w.runs[w.next := run] && w1.tasks == w.tasks;
    hide TextsOk, InsertRun, CountRunOf, EventsOk;
    var remark := Event(r, now, actor, "retry_created", "Created retry WorkRun.");
    var birth := Event(w.next, now, actor, "created", "Created as a retry of failed WorkRun.");
    var w2 := LogEvent(w1, remark);
    LogEventIsProgress(w1, remark);
    ProgressKeepsRecords(w1, w2);
    LogEventIsProgress(w2, birth);
    ProgressKeepsRecords(w2, LogEvent(w2, birth));
    TouchIsProgress(LogEvent(w2, birth), run.task, now);
    ProgressKeepsRecords(LogEvent(w2, birth), AddRetry(w, r, run, actor, now));
  }

  lemma RetryRunKeepsRecords(w: Tables, r: Id, actor: string, assignee: Option<string>, directory: set<string>,
                             now: Time)
    requires RecordsOk(w)
    ensures RecordsOk(RetryRun(w, r, actor, assignee, directory, now).work)
  {
    hide RecordsOk, AddRetry;
    if RetryRun(w, r, actor, assignee, directory, now).result.Ok? {
      var t := w.runs[r].task;
      var member := Normalized(OrElse(Normalized(assignee), Some(w.runs[r].assignee))).value;
      var run := QueuedRun(t, member, w.tasks[t].revision, ByRetry, w.runs[r].scheduledFor, now);
      AddRetryKeepsRecords(w, r, run, Normalized(Some(actor)).value, now);
    }
  }

  lemma TouchIsProgress(w: Tables, t: Id, now: Time)
    requires EventsOk(w) && t in w.tasks
    ensures Progress(w, w.(tasks := w.tasks[t := w.tasks[t].(updatedAt := now)]))
  {
  }

  // ---------------------------------------------------------------- revisions

  lemma RevisionKeepsHistory(w: Tables, t: Id, task: Task, revision: Revision)
    requires HistoryOk(w) && t in w.tasks && LaterRevision(w.next) !in w.revisions
    requires forall k :: k in w.revisions ==> w.revisions[k].task in w.tasks
    requires task.revision == w.tasks[t].revision + 1 && revision.task == t && revision.number == task.revision
    requires SameText(revision, task) && !SameText(revision, w.tasks[t])
    ensures HistoryOk(Revised(w, t, task, revision))
  {
    var key := LaterRevision(w.next);
    var w' := Revised(w, t, task, revision);
    forall u, n | u in w'.tasks && 1 <= n <= w'.tasks[u].revision ensures HasRevision(w'.revisions, u, n) {
      if u == t && n == task.revision {
        assert key in w'.revisions;
      } else {
        assert u in w.tasks;
        HasRevisionStays(w.revisions, u, n, key, revision);
      }
    }
    assert NumberedOnce(w'.revisions);
    assert NeighboursDiffer(w'.revisions);
  }

  /** The task's new text and the revision that records it. */
  function Revised(w: Tables, t: Id, task: Task, revision: Revision): Tables {
    w.(next := w.next + 1, tasks := w.tasks[t := task], revisions := w.revisions[LaterRevision(w.next) := revision])
  }

  lemma RevisedKeepsRest(w: Tables, t: Id, task: Task, revision: Revision)
    requires RunRevisionsOk(w) && TextsOk(w) && t in w.tasks && w.tasks[t].revision >= 1
    requires revision.task == t && revision.number == task.revision == w.tasks[t].revision + 1
    requires task.origin == w.tasks[t].origin && task.owner == w.tasks[t].owner
    requires NonBlank(task.title) && NonBlank(task.acceptanceCriteria)
    ensures RunRevisionsOk(Revised(w, t, task, revision)) && TextsOk(Revised(w, t, task, revision))
  {
  }

  lemma RevisedKeepsRefs(w: Tables, t: Id, task: Task, revision: Revision)
    requires RefsOk(w) && t in w.tasks && revision.task == t && revision.number > 1
    ensures RefsOk(Revised(w, t, task, revision))
  {
  }

  lemma HistoryCounts(w: Tables, t: Id)
    requires HistoryOk(w) && t in w.tasks
    ensures w.tasks[t].revision >= 1
  {
  }

  lemma AdvancedRunKeepsRecords(w: Tables, r: Id, now: Time)
    requires RecordsOk(w) && r in w.runs
    ensures w.runs[r].task in w.tasks
    ensures var task := w.tasks[w.runs[r].task];
            RecordsOk(w.(runs := w.runs[r := w.runs[r].(taskRevision := task.revision, updatedAt := now)]))
  {
    var run := w.runs[r].(taskRevision := w.tasks[w.runs[r].task].revision, updatedAt := now);
    AdvancedRunKeepsRefs(w, r, run);
    AdvancedRunKeepsRest(w, r, run);
    ProgressKeepsHistory(w, w.(runs := w.runs[r := run]));
  }

  lemma AdvancedRunKeepsRefs(w: Tables, r: Id, run: Run)
    requires RefsOk(w) && r in w.runs && run.task == w.runs[r].task
    ensures RefsOk(w.(runs := w.runs[r := run])) && EventsOk(w.(runs := w.runs[r := run]))
  {
  }

  lemma AdvancedRunKeepsRest(w: Tables, r: Id, run: Run)
    requires HistoryOk(w) && RunRevisionsOk(w) && TextsOk(w) && r in w.runs
    requires run.task == w.runs[r].task && run.task in w.tasks && run.taskRevision == w.tasks[run.task].revision
    requires run.assignee == w.runs[r].assignee
    ensures RunRevisionsOk(w.(runs := w.runs[r := run])) && TextsOk(w.(runs := w.runs[r := run]))
  {
  }

  lemma ApplyRevisionKeepsRecords(w: Tables, t: Id, task: Task, source: Option<Id>, actor: string, reason: string,
                                  now: Time)
    requires RecordsOk(w) && t in w.tasks
    requires source.Some? ==> source.value in w.runs && w.runs[source.value].task == t
    requires task.origin == w.tasks[t].origin && task.owner == w.tasks[t].owner
             && task.revision == w.tasks[t].revision + 1
    requires NonBlank(task.title) && NonBlank(task.acceptanceCriteria)
    requires task.title != w.tasks[t].title || task.description != w.tasks[t].description
             || task.acceptanceCriteria != w.tasks[t].acceptanceCriteria
    ensures RecordsOk(ApplyRevision(w, t, task, source, actor, reason, now))
  {
    hide HistoryOk, RunRevisionsOk, Progress, TextsOk;
    var revision := Revision(t, task.revision, task.title, task.description, task.acceptanceCriteria, actor, reason,
                             source, now);
    var w1 := Revised(w, t, task, revision);
    RevisionKeepsHistory(w, t, task, revision);
    assert w.tasks[t].revision >= 1 by { HistoryCounts(w, t); }
    RevisedKeepsRefs(w, t, task, revision);
    RevisedKeepsRest(w, t, task, revision);
    if source.Some? {
      var r := source.value;
      AdvancedRunKeepsRecords(w1, r, now);
      var w2 := w1.(runs := w1.runs[r := w1.runs[r].(taskRevision := task.revision, updatedAt := now)]);
      LogEventIsProgress(w2, Event(r, now, actor, "task_revised", "WorkTask objective revised."));
      ProgressKeepsRecords(w2, ApplyRevision(w, t, task, source, actor, reason, now));
    }
  }

  lemma ReviseTaskKeepsRecords(w: Tables, input: ReviseInput, now: Time)
    requires RecordsOk(w)
    ensures RecordsOk(ReviseTask(w, input, now).work)
  {
    if ReviseTask(w, input, now).result.Ok? {
      RevisedTaskHasTexts(w.tasks[input.task], input, now);
      ApplyRevisionKeepsRecords(w, input.task, RevisedTask(w.tasks[input.task], input, now).value, input.sourceRun,
                                Normalized(Some(input.actor)).value, Normalized(Some(input.reason)).value, now);
    }
  }

  lemma RevisedTaskHasTexts(task: Task, input: ReviseInput, now: Time)
    requires NonBlank(task.title) && NonBlank(task.acceptanceCriteria) && RevisedTask(task, input, now).Ok?
    ensures var revised := RevisedTask(task, input, now).value;
            NonBlank(revised.title) && NonBlank(revised.acceptanceCriteria)
  {
  }

  // ---------------------------------------------------------------- archives

  /** The archive remembers the exact status the task had. */
  lemma ArchiveRemembers(task: Task, actor: string, reason: Option<string>, now: Time)
    requires task.status != Archived
    ensures StatusBeforeArchive(ArchivedTask(task, actor, reason, now)) == task.status
  {
    assert "active"[0] == 'a' && "completed"[0] == 'c' && "completed"[1] == 'o' && "canceled"[1] == 'a';
    assert "archivedFromStatus"[8] == 'F' && "archivedReason"[8] == 'R' && "archivedByMemberId"[8] == 'B'
           && "archivedAt"[8] == 'A';
  }

  lemma ArchiveKeepsArchives(w: Tables, t: Id, actor: string, reason: Option<string>, now: Time)
    requires ArchivesOk(w)
    ensures ArchivesOk(ArchiveTask(w, t, actor, reason, now).work)
    ensures ArchivesOk(RestoreTask(w, t, actor, now).work)
  {
    if t in w.tasks && w.tasks[t].status != Archived && Normalized(Some(actor)).Some? {
      ArchiveRemembers(w.tasks[t], Normalized(Some(actor)).value, Normalized(reason), now);
    }
  }
}
