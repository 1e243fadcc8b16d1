/** What each operation of WorkService does to the Work tables.

    A failed operation normally leaves the tables alone.  Two operations evaluate a text check after
    their first statements are queued (MoveRun and CreateDueRun with a blank actor): those statements
    still run, so the outcome of such a call is an error together with half of its effect. */
module WorkOperations {
  import opened Prelude
  import opened WorkDomain

  datatype Error =
    | NotFound
    | TextRequired
    | InvalidTrigger
    | InvalidMaxRuns
    | AssigneeUnavailable
    | ScheduleNotEnabled
    | ScheduleNotDue
    | OnlyFailedRunsRetry
    | TaskNotActive
    | ActiveRunExists
    | ForeignRun
    | RunIsTerminal
    | NothingChanged
    | MoveNotAllowed
    | ReasonRequired
    | EvidenceRequired
    | TaskIsArchived
    | CannotArchive
    | LeaseIsPending
    | LeaseNotFailed
    | EmployeeMissing
    | RecoveryFailed

  datatype Outcome<+T> = Outcome(work: Tables, result: Result<T, Error>)

  // ---------------------------------------------------------------- shared steps

  /** Appends an event under a fresh id. */
  function LogEvent(w: Tables, event: Event): Tables {
    w.(next := w.next + 1, events := w.events[w.next := event])
  }

  /** The schedule's counter moves with every run of its task. */
  function CountRun(schedule: Schedule, now: Time): Schedule {
    schedule.(runCount := schedule.runCount + 1, lastRunAt := Some(now), updatedAt := now)
  }

  function CountRunOf(w: Tables, task: Id, now: Time): Tables {
    match ScheduleOf(w, task)
    case None => w
    case Some(s) => w.(schedules := w.schedules[s := CountRun(w.schedules[s], now)])
  }

  /** Inserts a run under a fresh id and counts it. */
  function InsertRun(w: Tables, run: Run): Tables {
    CountRunOf(w, run.task, run.createdAt).(next := w.next + 1, runs := w.runs[w.next := run])
  }

  function QueuedRun(task: Id, assignee: string, revision: nat, trigger: TriggeredBy, scheduledFor: Option<Time>,
                     now: Time): Run {
    Run(task, Queued, assignee, revision, trigger, scheduledFor, None, None, None, None, None, None, now, now)
  }

  // ---------------------------------------------------------------- createWork

  datatype CreateInput = CreateInput(
    title: string, description: Option<string>, createdBy: string, owner: string, sourceKind: SourceKind,
    sourceId: string, topic: Option<string>, requester: Option<string>, acceptanceCriteria: string,
    kind: TriggerKind, scheduledFor: Option<Time>, intervalMs: Option<int>, maxRuns: Option<int>,
    metadata: map<string, MetadataValue>)

  predicate NeedsSchedule(kind: TriggerKind) {
    kind == ScheduledOnce || kind == Recurring
  }

  function TriggerError(input: CreateInput): Option<Error> {
    if NeedsSchedule(input.kind) && input.scheduledFor.None? then Some(InvalidTrigger)
    else if input.kind == Recurring && (input.intervalMs.None? || input.intervalMs.value <= 0) then Some(InvalidTrigger)
    else if input.maxRuns.Some? && input.maxRuns.value <= 0 then Some(InvalidMaxRuns)
    else if !NeedsSchedule(input.kind) && input.maxRuns.Some? then Some(InvalidMaxRuns)
    else None
  }

  function NewTask(input: CreateInput, now: Time): Result<Task, Error> {
    var title := Normalized(Some(input.title));
    var createdBy := Normalized(Some(input.createdBy));
    var owner := Normalized(Some(input.owner));
    var sourceId := Normalized(Some(input.sourceId));
    var criteria := Normalized(Some(input.acceptanceCriteria));
    if title.None? || createdBy.None? || owner.None? || sourceId.None? || criteria.None? then Err(TextRequired)
    else
      Ok(Task(
           TaskOrigin(createdBy.value, input.sourceKind, sourceId.value, Normalized(input.topic),
                      Normalized(input.requester), now),
           title.value, Normalized(input.description), Active, owner.value, criteria.value, 1, None,
           input.metadata, now, None))
  }

  function FirstRevision(id: Id, task: Task): Revision {
    Revision(id, task.revision, task.title, task.description, task.acceptanceCriteria, task.origin.createdBy,
             "Initial Task objective confirmed.", None, task.origin.createdAt)
  }

  function InsertTask(w: Tables, task: Task): Tables {
    w.(next := w.next + 1, tasks := w.tasks[w.next := task],
       revisions := w.revisions[InitialRevision(w.next) := FirstRevision(w.next, task)])
  }

  function NewSchedule(input: CreateInput, task: Id, now: Time): Schedule {
    Schedule(task, Enabled, input.kind, input.scheduledFor,
             if input.intervalMs == Some(0) then None else input.intervalMs,
             input.scheduledFor, None, 0, input.maxRuns, None, None, now, now, None)
  }

  function CreateWork(w: Tables, input: CreateInput, directory: set<string>, now: Time): Outcome<Id> {
    match TriggerError(input)
    case Some(e) => Outcome(w, Err(e))
    case None =>
      if Normalized(Some(input.owner)).None? then Outcome(w, Err(TextRequired))
      else if Normalized(Some(input.owner)).value !in directory then Outcome(w, Err(AssigneeUnavailable))
      else
        match NewTask(input, now)
        case Err(e) => Outcome(w, Err(e))
        case Ok(task) =>
          var t := w.next;
          var w1 := InsertTask(w, task);
          if NeedsSchedule(input.kind) then
            Outcome(w1.(next := w1.next + 1, schedules := w1.schedules[w1.next := NewSchedule(input, t, now)]), Ok(t))
          else
            var r := w1.next;
            var w2 := InsertRun(w1, QueuedRun(t, task.owner, task.revision, ByImmediate, Some(now), now));
            Outcome(LogEvent(w2, Event(r, now, task.origin.createdBy, "created", "Created WorkRun.")), Ok(t))
  }

  // ---------------------------------------------------------------- createDueWorkRun

  datatype DueRun = DueRun(run: Id, created: bool)

  /** The run that already stands for a schedule's slot. */
  predicate FillsSlot(run: Run, task: Id, slot: Time) {
    && run.task == task
    && run.scheduledFor == Some(slot)
    && (run.triggeredBy == BySchedule || run.triggeredBy == ByRecurrence)
  }

  function FirstFilling(runs: map<Id, Run>, ids: seq<Id>, task: Id, slot: Time): (r: Option<Id>)
    requires forall i :: 0 <= i < |ids| ==> ids[i] in runs
    ensures r.Some? ==> r.value in ids && r.value in runs && FillsSlot(runs[r.value], task, slot)
    ensures r.None? ==> forall i :: 0 <= i < |ids| ==> !FillsSlot(runs[ids[i]], task, slot)
  {
    if ids == [] then None
    else if FillsSlot(runs[ids[0]], task, slot) then Some(ids[0])
    else FirstFilling(runs, ids[1..], task, slot)
  }

  function NextRunAt(schedule: Schedule, slot: Time): Option<Time> {
    if schedule.kind != Recurring || schedule.intervalMs.None? || schedule.intervalMs.value <= 0 then None
    else Some(slot + schedule.intervalMs.value)
  }

  function AdvanceSchedule(schedule: Schedule, slot: Time, now: Time): Schedule {
    var spent := schedule.kind == ScheduledOnce
                 || (schedule.maxRuns.Some? && schedule.runCount >= schedule.maxRuns.value);
    schedule.(status := if spent then ScheduleCompleted else schedule.status,
              nextRunAt := if spent then None else NextRunAt(schedule, slot),
              completedAt := if spent then Some(now) else schedule.completedAt,
              updatedAt := now)
  }

  function CreateDueRun(w: Tables, s: Id, actor: string, directory: set<string>, now: Time): Outcome<DueRun> {
    if s !in w.schedules then Outcome(w, Err(NotFound))
    else
      var schedule := w.schedules[s];
      if schedule.status != Enabled then Outcome(w, Err(ScheduleNotEnabled))
      else if schedule.nextRunAt.None? || schedule.nextRunAt.value > now then Outcome(w, Err(ScheduleNotDue))
      else if schedule.task !in w.tasks then Outcome(w, Err(NotFound))
      else
        var t := schedule.task;
        var task := w.tasks[t];
        var slot := schedule.nextRunAt.value;
        if task.owner !in directory then Outcome(w, Err(AssigneeUnavailable))
        else
          match FirstFilling(w.runs, RunIdsOf(w.runs, t, w.next), t, slot)
          case Some(existing) => Outcome(w, Ok(DueRun(existing, false)))
          case None =>
            var r := w.next;
            var trigger := if schedule.kind == Recurring then ByRecurrence else BySchedule;
            var w1 := InsertRun(w, QueuedRun(t, task.owner, task.revision, trigger, Some(slot), now));
            match Normalized(Some(actor))
            case None => Outcome(w1, Err(TextRequired))
            case Some(who) =>
              var w2 := LogEvent(w1, Event(r, now, who, "created", "Created WorkRun from due WorkSchedule."));
              if s !in w2.schedules then Outcome(w2, Ok(DueRun(r, true)))
              else
                Outcome(w2.(schedules := w2.schedules[s := AdvanceSchedule(w2.schedules[s], slot, now)]),
                        Ok(DueRun(r, true)))
  }

  // ---------------------------------------------------------------- retryWorkRun

  function FirstActive(runs: map<Id, Run>, ids: seq<Id>): (r: Option<Id>)
    requires forall i :: 0 <= i < |ids| ==> ids[i] in runs
    ensures r.None? <==> forall i :: 0 <= i < |ids| ==> IsTerminal(runs[ids[i]].status)
  {
    if ids == [] then None
    else if !IsTerminal(runs[ids[0]].status) then Some(ids[0])
    else FirstActive(runs, ids[1..])
  }

  /** The retry, the remark on the failed run, the retry's own first event, and the touched task. */
  function AddRetry(w: Tables, r: Id, run: Run, actor: string, now: Time): Tables
    requires run.task in w.tasks
  {
    var w1 := InsertRun(w, run);
    var w2 := LogEvent(w1, Event(r, now, actor, "retry_created", "Created retry WorkRun."));
    var w3 := LogEvent(w2, Event(w.next, now, actor, "created", "Created as a retry of failed WorkRun."));
    w3.(tasks := w3.tasks[run.task := w.tasks[run.task].(updatedAt := now)])
  }

  function RetryRun(w: Tables, r: Id, actor: string, assignee: Option<string>, directory: set<string>,
                    now: Time): Outcome<Id> {
    match Normalized(Some(actor))
    case None => Outcome(w, Err(TextRequired))
    case Some(who) =>
      if r !in w.runs then Outcome(w, Err(NotFound))
      else if w.runs[r].status != Failed then Outcome(w, Err(OnlyFailedRunsRetry))
      else
        var t := w.runs[r].task;
        if t !in w.tasks then Outcome(w, Err(NotFound))
        else if w.tasks[t].status != Active then Outcome(w, Err(TaskNotActive))
        else if FirstActive(w.runs, RunIdsOf(w.runs, t, w.next)).Some? then Outcome(w, Err(ActiveRunExists))
        else
          var member := Normalized(OrElse(Normalized(assignee), Some(w.runs[r].assignee)));
          if member.None? then Outcome(w, Err(TextRequired))
          else if member.value !in directory then Outcome(w, Err(AssigneeUnavailable))
          else
            var run := QueuedRun(t, member.value, w.tasks[t].revision, ByRetry, w.runs[r].scheduledFor, now);
            Outcome(AddRetry(w, r, run, who, now), Ok(w.next))
  }

  // ---------------------------------------------------------------- reviseWorkTask

  datatype ReviseInput = ReviseInput(
    task: Id, actor: string, reason: string, title: Option<string>, description: Option<string>,
    acceptanceCriteria: Option<string>, sourceRun: Option<Id>)

  /** The new text, the old one when none is given, or nothing when a blank one is given. */
  function RevisedText(given: Option<string>, current: Option<string>): Result<Option<string>, Error> {
    if given.None? then Ok(current)
    else if Normalized(given).None? then Err(TextRequired)
    else Ok(Normalized(given))
  }

  function SourceRunError(w: Tables, input: ReviseInput): Option<Error> {
    match input.sourceRun
    case None => None
    case Some(r) =>
      if r !in w.runs then Some(NotFound)
      else if w.runs[r].task != input.task then Some(ForeignRun)
      else if IsTerminal(w.runs[r].status) then Some(RunIsTerminal)
      else None
  }

  function RevisedTask(task: Task, input: ReviseInput, now: Time): Result<Task, Error> {
    var title := RevisedText(input.title, Some(task.title));
    var description := RevisedText(input.description, task.description);
    var criteria := RevisedText(input.acceptanceCriteria, Some(task.acceptanceCriteria));
    if title.Err? || description.Err? || criteria.Err? || title.value.None? || criteria.value.None? then
      Err(TextRequired)
    else if title.value.value == task.title && description.value == task.description
            && criteria.value.value == task.acceptanceCriteria then Err(NothingChanged)
    else
      Ok(task.(title := title.value.value, description := description.value,
               acceptanceCriteria := criteria.value.value, revision := task.revision + 1, updatedAt := now))
  }

  /** The new text on the task, its revision, and the source run moved on to it. */
  function ApplyRevision(w: Tables, t: Id, task: Task, source: Option<Id>, actor: string, reason: string,
                         now: Time): Tables
    requires source.Some? ==> source.value in w.runs
  {
    var revision := Revision(t, task.revision, task.title, task.description, task.acceptanceCriteria, actor, reason,
                             source, now);
    var w1 := w.(next := w.next + 1, tasks := w.tasks[t := task],
                 revisions := w.revisions[LaterRevision(w.next) := revision]);
    match source
    case None => w1
    case Some(r) =>
      var w2 := w1.(runs := w1.runs[r := w1.runs[r].(taskRevision := task.revision, updatedAt := now)]);
      LogEvent(w2, Event(r, now, actor, "task_revised", "WorkTask objective revised."))
  }

  function ReviseTask(w: Tables, input: ReviseInput, now: Time): Outcome<nat> {
    var actor := Normalized(Some(input.actor));
    var reason := Normalized(Some(input.reason));
    if actor.None? || reason.None? then Outcome(w, Err(TextRequired))
    else if input.task !in w.tasks then Outcome(w, Err(NotFound))
    else if w.tasks[input.task].status != Active then Outcome(w, Err(TaskNotActive))
    else
      match SourceRunError(w, input)
      case Some(e) => Outcome(w, Err(e))
      case None =>
        match RevisedTask(w.tasks[input.task], input, now)
        case Err(e) => Outcome(w, Err(e))
        case Ok(task) =>
          Outcome(ApplyRevision(w, input.task, task, input.sourceRun, actor.value, reason.value, now),
                  Ok(task.revision))
  }

  // ---------------------------------------------------------------- moveWorkSchedule

  /** The three targets a caller may name; completion is never one of them. */
  datatype ScheduleMove = Enable | Pause | CancelSchedule

  function Target(move: ScheduleMove): ScheduleStatus {
    match move
    case Enable => Enabled
    case Pause => Paused
    case CancelSchedule => ScheduleCanceled
  }

  function CanceledTask(task: Task, reason: Option<string>, now: Time): Task {
    task.(status := TaskCanceled, canceledReason := reason, completedAt := Some(now), updatedAt := now)
  }

  function MoveSchedule(w: Tables, s: Id, move: ScheduleMove, reason: Option<string>, now: Time): Outcome<Id> {
    if s !in w.schedules then Outcome(w, Err(NotFound))
    else
      var schedule := w.schedules[s];
      var status := Target(move);
      if schedule.status == status then Outcome(w, Ok(s))
      else if status !in AllowedScheduleMoves(schedule.status) then Outcome(w, Err(MoveNotAllowed))
      else
        var why := Normalized(reason);
        var moved := schedule.(
        status := status,
        pausedReason := if status == Paused then why else None,
        canceledReason := if status == ScheduleCanceled then why else None,
        completedAt := if status == ScheduleCanceled then Some(now) else None,
        updatedAt := now);
        var w1 := w.(schedules := w.schedules[s := moved]);
        if status == ScheduleCanceled && schedule.task in w.tasks then
          Outcome(w1.(tasks := w1.tasks[schedule.task := CanceledTask(w1.tasks[schedule.task], why, now)]), Ok(s))
        else Outcome(w1, Ok(s))
  }

  // ---------------------------------------------------------------- cancelWorkTask

  function CanceledSchedule(schedule: Schedule, reason: string, now: Time): Schedule {
    if IsLive(schedule.status) then
      schedule.(status := ScheduleCanceled, canceledReason := Some(reason), nextRunAt := None,
                completedAt := Some(now), updatedAt := now)
    else schedule
  }

  function CanceledRun(run: Run, reason: string, now: Time): Run {
    run.(status := Canceled, completedAt := Some(now), canceledReason := Some(reason), updatedAt := now)
  }

  /** Cancels one run, unless it is already terminal, and logs it. */
  function CancelOneRun(w: Tables, r: Id, actor: string, reason: string, now: Time): Tables
    requires r in w.runs
  {
    if IsTerminal(w.runs[r].status) then w
    else
      LogEvent(w.(runs := w.runs[r := CanceledRun(w.runs[r], reason, now)]),
               Event(r, now, actor, "canceled", "Canceled WorkRun because its WorkTask was canceled."))
  }

  function CancelRuns(w: Tables, ids: seq<Id>, actor: string, reason: string, now: Time): (w': Tables)
    requires forall i :: 0 <= i < |ids| ==> ids[i] in w.runs
    ensures w'.runs.Keys == w.runs.Keys
    ensures w'.tasks == w.tasks && w'.schedules == w.schedules && w'.revisions == w.revisions
  {
    if ids == [] then w
    else CancelOneRun(CancelRuns(w, ids[..|ids| - 1], actor, reason, now), ids[|ids| - 1], actor, reason, now)
  }

  function CancelSchedules(schedules: map<Id, Schedule>, task: Id, reason: string, now: Time): map<Id, Schedule> {
    map s | s in schedules :: if schedules[s].task == task then CanceledSchedule(schedules[s], reason, now)
                              else schedules[s]
  }

  function CancelTask(w: Tables, t: Id, actor: string, reason: Option<string>, now: Time): Outcome<Id> {
    var why := Normalized(reason);
    var who := Normalized(Some(actor));
    if why.None? || who.None? then Outcome(w, Err(TextRequired))
    else if t !in w.tasks then Outcome(w, Err(NotFound))
    else if w.tasks[t].status == Archived then Outcome(w, Err(TaskIsArchived))
    else
      var w1 := w.(tasks := w.tasks[t := CanceledTask(w.tasks[t], why, now)],
                   schedules := CancelSchedules(w.schedules, t, why.value, now));
      Outcome(CancelRuns(w1, RunIdsOf(w.runs, t, w.next), who.value, why.value, now), Ok(t))
  }

  // ---------------------------------------------------------------- archiveWorkTask, restoreWorkTask

  function StatusName(status: TaskStatus): string {
    match status
    case Active => "active"
    case Completed => "completed"
    case TaskCanceled => "canceled"
    case Archived => "archived"
  }

  /** The status an archived task had, as its metadata remembers it. */
  function StatusBeforeArchive(task: Task): TaskStatus {
    if "archivedFromStatus" !in task.metadata then TaskCanceled
    else
      var value := task.metadata["archivedFromStatus"];
      if value == MetadataText("active") then Active
      else if value == MetadataText("completed") then Completed
      else TaskCanceled
  }

  function ArchivedTask(task: Task, actor: string, reason: Option<string>, now: Time): Task {
    var note := task.metadata["archivedFromStatus" := MetadataText(StatusName(task.status))]
                ["archivedByMemberId" := MetadataText(actor)]["archivedAt" := MetadataOther];
    task.(status := Archived,
          metadata := if reason.None? then note - {"archivedReason"}
                      else note["archivedReason" := MetadataText(reason.value)],
          updatedAt := now)
  }

  function ArchiveTask(w: Tables, t: Id, actor: string, reason: Option<string>, now: Time): Outcome<Id> {
    var who := Normalized(Some(actor));
    if who.None? then Outcome(w, Err(TextRequired))
    else if t !in w.tasks then Outcome(w, Err(NotFound))
    else if w.tasks[t].status == Archived then Outcome(w, Ok(t))
    else if w.tasks[t].status == Active then Outcome(w, Err(CannotArchive))
    else Outcome(w.(tasks := w.tasks[t := ArchivedTask(w.tasks[t], who.value, Normalized(reason), now)]), Ok(t))
  }

  function RestoreTask(w: Tables, t: Id, actor: string, now: Time): Outcome<Id> {
    if Normalized(Some(actor)).None? then Outcome(w, Err(TextRequired))
    else if t !in w.tasks then Outcome(w, Err(NotFound))
    else if w.tasks[t].status != Archived then Outcome(w, Ok(t))
    else
      Outcome(w.(tasks := w.tasks[t := w.tasks[t].(status := StatusBeforeArchive(w.tasks[t]), updatedAt := now)]),
              Ok(t))
  }

  // ---------------------------------------------------------------- moveWorkRun

  datatype MoveInput = MoveInput(
    run: Id, actor: string, status: RunStatus, summary: Option<string>, reason: Option<string>,
      evidence: Option<string>)

  function EventTypeFor(status: RunStatus): string {
    match status
    case InProgress => "started"
    case Done => "completed"
    case Queued => "queued"
    case Blocked => "blocked"
    case Failed => "failed"
    case Canceled => "canceled"
  }

  predicate NeedsReason(status: RunStatus) {
    status == Blocked || status == Failed || status == Canceled
  }

  function MoveError(run: Run, input: MoveInput): Option<Error> {
    if input.status !in AllowedRunMoves(run.status) then Some(MoveNotAllowed)
    else if NeedsReason(input.status) && Normalized(input.reason).None? then Some(ReasonRequired)
    else if input.status == Done && Normalized(input.evidence).None? then Some(EvidenceRequired)
    else None
  }

  function MovedRun(run: Run, input: MoveInput, now: Time): Run {
    var reason := Normalized(input.reason);
    run.(status := input.status,
         startedAt := if input.status == InProgress && run.startedAt.None? then Some(now) else run.startedAt,
         completedAt := if IsTerminal(input.status) then Some(now) else run.completedAt,
         blockedReason := if input.status == Blocked then reason else run.blockedReason,
         failedReason := if input.status == Failed then reason else run.failedReason,
         canceledReason := if input.status == Canceled then reason else run.canceledReason,
         resultSummary := if input.status == Done then OrElse(Normalized(input.summary), Normalized(input.evidence))
                          else run.resultSummary,
         updatedAt := now)
  }

  function SummaryOr(summary: Option<string>, default: string): string {
    var text := Normalized(summary);
    if text.Some? then text.value else default
  }

  predicate IsOneShot(w: Tables, t: Id)
    requires t in w.tasks
  {
    match ScheduleOf(w, t)
    case Some(s) => w.schedules[s].kind == ScheduledOnce
    case None =>
      var ids := RunIdsOf(w.runs, t, w.next);
      exists i :: 0 <= i < |ids| && w.runs[ids[i]].createdAt == w.tasks[t].origin.createdAt
  }

  function Max(a: int, b: int): int {
    if a < b then b else a
  }

  function RepairedCount(w: Tables, t: Id): nat {
    var runs := |RunIdsOf(w.runs, t, w.next)|;
    match ScheduleOf(w, t)
    case Some(s) => Max(w.schedules[s].runCount, runs)
    case None => runs
  }

  /** Whether a terminal run of the task ends the task's work. */
  predicate ClosesWork(w: Tables, t: Id)
    requires t in w.tasks
  {
    || IsOneShot(w, t)
    || (match ScheduleOf(w, t)
        case Some(s) => w.schedules[s].maxRuns.Some? && RepairedCount(w, t) >= w.schedules[s].maxRuns.value
        case None => false)
  }

  function TaskStatusForTerminalRun(status: RunStatus): TaskStatus {
    if status == Done then Completed else if status == Canceled then TaskCanceled else Active
  }

  function ClosedTask(task: Task, status: RunStatus, reason: Option<string>, now: Time): Task {
    var closed := TaskStatusForTerminalRun(status);
    task.(status := closed,
          canceledReason := if closed == TaskCanceled then OrElse(reason, Some("WorkRun was canceled.")) else None,
          completedAt := if closed == Active then task.completedAt else Some(now),
          updatedAt := now)
  }

  function ClosedSchedule(schedule: Schedule, count: nat, now: Time): Schedule {
    schedule.(status := ScheduleCompleted, runCount := count, lastRunAt := Some(now), nextRunAt := None,
              pausedReason := None, canceledReason := None,
              completedAt := if schedule.completedAt.Some? then schedule.completedAt else Some(now),
              updatedAt := now)
  }

  function TouchedSchedule(schedule: Schedule, count: nat, now: Time): Schedule {
    schedule.(runCount := count, lastRunAt := Some(now), updatedAt := now)
  }

  function SettledTask(w: Tables, t: Id, status: RunStatus, reason: Option<string>, now: Time): Task
    requires t in w.tasks
  {
    if ClosesWork(w, t) then ClosedTask(w.tasks[t], status, reason, now) else w.tasks[t].(updatedAt := now)
  }

  function SettledSchedule(w: Tables, t: Id, schedule: Schedule, now: Time): Schedule
    requires t in w.tasks
  {
    if ClosesWork(w, t) then ClosedSchedule(schedule, RepairedCount(w, t), now)
    else TouchedSchedule(schedule, RepairedCount(w, t), now)
  }

  /** The part of moveWorkRun that carries a terminal run over to its task and schedule. */
  function SettleTask(w: Tables, t: Id, status: RunStatus, reason: Option<string>, now: Time): Tables {
    if !IsTerminal(status) || t !in w.tasks then w
    else
      var w1 := w.(tasks := w.tasks[t := SettledTask(w, t, status, reason, now)]);
      match ScheduleOf(w, t)
      case None => w1
      case Some(s) => w1.(schedules := w1.schedules[s := SettledSchedule(w, t, w.schedules[s], now)])
  }

  function MoveRun(w: Tables, input: MoveInput, now: Time): Outcome<Id> {
    if input.run !in w.runs then Outcome(w, Err(NotFound))
    else
      var run := w.runs[input.run];
      match MoveError(run, input)
      case Some(e) => Outcome(w, Err(e))
      case None =>
        var w1 := w.(runs := w.runs[input.run := MovedRun(run, input, now)]);
        match Normalized(Some(input.actor))
        case None => Outcome(w1, Err(TextRequired))
        case Some(actor) =>
          var event := Event(input.run, now, actor, EventTypeFor(input.status),
                             SummaryOr(input.summary, "Moved WorkRun."));
          Outcome(SettleTask(LogEvent(w1, event), run.task, input.status, Normalized(input.reason), now), Ok(input.run))
  }

  // ---------------------------------------------------------------- recordWorkRunEvent

  function RecordEvent(w: Tables, r: Id, actor: string, eventType: string, summary: string, now: Time): Outcome<Id> {
    var who := Normalized(Some(actor));
    var kind := Normalized(Some(eventType));
    var text := Normalized(Some(summary));
    if r !in w.runs then Outcome(w, Err(NotFound))
    else if who.None? || kind.None? || text.None? then Outcome(w, Err(TextRequired))
    else Outcome(LogEvent(w, Event(r, now, who.value, kind.value, text.value)), Ok(w.next))
  }
}
