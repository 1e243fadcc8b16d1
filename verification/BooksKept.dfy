/** Every operation of WorkService keeps all promises about the Work tables, and what it does to runs. */
module BooksKept {
  import opened Prelude
  import opened WorkDomain
  import opened WorkOperations
  import opened RunLog
  import opened WorkInvariants
  import opened LogsKept
  import opened RecordsKept
  import opened SchedulesKept
  import opened OneShotsKept

  /** The promises again, as the groups in which they are kept. */
  lemma BooksAreGroups(w: Tables)
    ensures BooksOk(w) <==> RecordsOk(w) && SchedulesOk(w) && LivesOk(w) && LogsOk(w)
  {
    hide HistoryOk, RunRevisionsOk, TextsOk, CountsOk, IdleOk, SlotsOk, ArchivesOk, OneShotsOk;
    hide OneSchedule, KeyFits, LogAgrees, FieldsAgree;
  }

  lemma NoWorkIsInOrder()
    ensures BooksOk(NO_WORK)
  {
  }

  /** What the lemmas of the groups ask for. */
  lemma BooksHaveGroups(w: Tables)
    requires BooksOk(w)
    ensures RecordsOk(w) && SchedulesOk(w) && LivesOk(w) && LogsOk(w) && RefsOk(w) && EventsOk(w)
  {
    hide RefsOk, HistoryOk, RunRevisionsOk, TextsOk, CountsOk, IdleOk, SlotsOk, ArchivesOk, OneShotsOk, LogAgrees,
         FieldsAgree;
    BooksAreGroups(w);
  }

  lemma RunsHaveTasks(w: Tables)
    requires BooksOk(w)
    ensures forall r :: r in w.runs ==> w.runs[r].task in w.tasks
  {
    hide HistoryOk, RunRevisionsOk, CountsOk, IdleOk, SlotsOk, ArchivesOk, OneShotsOk, TextsOk;
  }

  lemma CreateWorkKeepsBooks(w: Tables, input: CreateInput, directory: set<string>, now: Time)
    requires BooksOk(w)
    ensures BooksOk(CreateWork(w, input, directory, now).work)
  {
    hide *;
    BooksHaveGroups(w);
    CreateWorkKeepsLogs(w, input, directory, now);
    CreateWorkKeepsRecords(w, input, directory, now);
    CreateWorkKeepsSchedules(w, input, directory, now);
    CreateWorkKeepsLives(w, input, directory, now);
    BooksAreGroups(CreateWork(w, input, directory, now).work);
  }

  lemma CreateDueRunKeepsBooks(w: Tables, s: Id, actor: string, directory: set<string>, now: Time)
    requires BooksOk(w) && NonBlank(actor)
    ensures BooksOk(CreateDueRun(w, s, actor, directory, now).work)
  {
    hide *;
    BooksHaveGroups(w);
    CreateDueRunKeepsLogs(w, s, actor, directory, now);
    CreateDueRunKeepsRecords(w, s, actor, directory, now);
    CreateDueRunKeepsSchedules(w, s, actor, directory, now);
    CreateDueRunKeepsLives(w, s, actor, directory, now);
    BooksAreGroups(CreateDueRun(w, s, actor, directory, now).work);
  }

  lemma RetryRunKeepsBooks(w: Tables, r: Id, actor: string, assignee: Option<string>, directory: set<string>, now: Time)
    requires BooksOk(w)
    ensures BooksOk(RetryRun(w, r, actor, assignee, directory, now).work)
  {
    hide *;
    BooksHaveGroups(w);
    RetryRunKeepsLogs(w, r, actor, assignee, directory, now);
    RetryRunKeepsRecords(w, r, actor, assignee, directory, now);
    RetryRunKeepsSchedules(w, r, actor, assignee, directory, now);
    RetryRunKeepsLives(w, r, actor, assignee, directory, now);
    BooksAreGroups(RetryRun(w, r, actor, assignee, directory, now).work);
  }

  lemma ReviseTaskKeepsBooks(w: Tables, input: ReviseInput, now: Time)
    requires BooksOk(w)
    ensures BooksOk(ReviseTask(w, input, now).work)
  {
    hide *;
    BooksHaveGroups(w);
    ReviseTaskKeepsLogs(w, input, now);
    ReviseTaskKeepsRecords(w, input, now);
    ReviseTaskKeepsSchedules(w, input, now);
    ReviseTaskKeepsLives(w, input, now);
    BooksAreGroups(ReviseTask(w, input, now).work);
  }

  lemma MoveScheduleKeepsBooks(w: Tables, s: Id, move: ScheduleMove, reason: Option<string>, now: Time)
    requires BooksOk(w)
    ensures BooksOk(MoveSchedule(w, s, move, reason, now).work)
  {
    hide *;
    BooksHaveGroups(w);
    MoveScheduleKeepsLogs(w, s, move, reason, now);
    MoveScheduleIsProgress(w, s, move, reason, now);
    ProgressKeepsRecords(w, MoveSchedule(w, s, move, reason, now).work);
    MoveScheduleKeepsSchedules(w, s, move, reason, now);
    MoveScheduleKeepsLives(w, s, move, reason, now);
    BooksAreGroups(MoveSchedule(w, s, move, reason, now).work);
  }

  lemma CancelTaskKeepsBooks(w: Tables, t: Id, actor: string, reason: Option<string>, now: Time)
    requires BooksOk(w)
    ensures BooksOk(CancelTask(w, t, actor, reason, now).work)
  {
    hide *;
    BooksHaveGroups(w);
    CancelTaskKeepsLogs(w, t, actor, reason, now);
    CancelTaskIsProgress(w, t, actor, reason, now);
    ProgressKeepsRecords(w, CancelTask(w, t, actor, reason, now).work);
    CancelTaskKeepsSchedules(w, t, actor, reason, now);
    CancelTaskKeepsLives(w, t, actor, reason, now);
    BooksAreGroups(CancelTask(w, t, actor, reason, now).work);
  }

  lemma MoveRunKeepsBooks(w: Tables, input: MoveInput, now: Time)
    requires BooksOk(w) && NonBlank(input.actor)
    ensures BooksOk(MoveRun(w, input, now).work)
  {
    hide *;
    BooksHaveGroups(w);
    MoveRunKeepsLogs(w, input, now);
    MoveRunIsProgress(w, input, now);
    ProgressKeepsRecords(w, MoveRun(w, input, now).work);
    MoveRunKeepsSchedules(w, input, now);
    MoveRunKeepsLives(w, input, now);
    BooksAreGroups(MoveRun(w, input, now).work);
  }

  lemma ArchiveAndRestoreKeepBooks(w: Tables, t: Id, actor: string, reason: Option<string>, now: Time)
    requires BooksOk(w)
    ensures BooksOk(ArchiveTask(w, t, actor, reason, now).work)
    ensures BooksOk(RestoreTask(w, t, actor, now).work)
  {
    hide *;
    BooksHaveGroups(w);
    ArchiveAndRestoreKeepLogs(w, t, actor, reason, now);
    ArchiveAndRestoreAreProgress(w, t, actor, reason, now);
    ProgressKeepsRecords(w, ArchiveTask(w, t, actor, reason, now).work);
    ProgressKeepsRecords(w, RestoreTask(w, t, actor, now).work);
    ArchiveAndRestoreKeepSchedules(w, t, actor, reason, now);
    ArchiveKeepsLives(w, t, actor, reason, now);
    RestoreKeepsLives(w, t, actor, now);
    BooksAreGroups(ArchiveTask(w, t, actor, reason, now).work);
    BooksAreGroups(RestoreTask(w, t, actor, now).work);
  }

  /** Recording keeps the books for every event type that is a remark. */
  lemma RecordEventKeepsBooks(w: Tables, r: Id, actor: string, eventType: string, summary: string, now: Time)
    requires BooksOk(w) && StatusOfEvent(Trim(eventType)) == None
    ensures BooksOk(RecordEvent(w, r, actor, eventType, summary, now).work)
  {
    BooksHaveGroups(w);
    RecordEventKeepsLogs(w, r, actor, eventType, summary, now);
    hide *;
    RecordEventIsProgress(w, r, actor, eventType, summary, now);
    ProgressKeepsRecords(w, RecordEvent(w, r, actor, eventType, summary, now).work);
    RecordEventKeepsSchedules(w, r, actor, eventType, summary, now);
    RecordEventKeepsLives(w, r, actor, eventType, summary, now);
    BooksAreGroups(RecordEvent(w, r, actor, eventType, summary, now).work);
  }
}
