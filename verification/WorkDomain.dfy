/** The records of the Work system and the queries over them.

    An Id is the place of a record in the order of (creation time, id), so "created earlier" is
    "has the smaller Id" and a fresh id is the number of ids handed out so far. */
module WorkDomain {
  import opened Prelude

  type Id = nat
  type Time = int

  datatype TaskStatus = Active | Completed | TaskCanceled | Archived
  datatype ScheduleStatus = Enabled | Paused | ScheduleCanceled | ScheduleCompleted
  datatype RunStatus = Queued | InProgress | Blocked | Done | Failed | Canceled
  datatype TriggerKind = Immediate | ScheduledOnce | Recurring
  datatype TriggeredBy = ByImmediate | BySchedule | ByRecurrence | ByRetry
  datatype SourceKind = ChatRequest | IntakeEvent | Manual

  /** A value of a task's free-form metadata; only texts are ever read back. */
  datatype MetadataValue = MetadataText(text: string) | MetadataOther

  /** The columns of a task that no UPDATE ever writes. */
  datatype TaskOrigin = TaskOrigin(
    createdBy: string, sourceKind: SourceKind, sourceId: string, topic: Option<string>,
    requester: Option<string>, createdAt: Time)

  datatype Task = Task(
    origin: TaskOrigin, title: string, description: Option<string>, status: TaskStatus, owner: string,
    acceptanceCriteria: string, revision: nat, canceledReason: Option<string>,
    metadata: map<string, MetadataValue>, updatedAt: Time, completedAt: Option<Time>)

  /** The initial revision's id is derived from the task's id; later ones are fresh. */
  datatype RevisionKey = InitialRevision(task: Id) | LaterRevision(id: Id)

  datatype Revision = Revision(
    task: Id, number: nat, title: string, description: Option<string>, acceptanceCriteria: string,
    changedBy: string, reason: string, sourceRun: Option<Id>, createdAt: Time)

  datatype Schedule = Schedule(
    task: Id, status: ScheduleStatus, kind: TriggerKind, start: Option<Time>, intervalMs: Option<int>,
    nextRunAt: Option<Time>, lastRunAt: Option<Time>, runCount: nat, maxRuns: Option<int>,
    pausedReason: Option<string>, canceledReason: Option<string>, createdAt: Time, updatedAt: Time,
    completedAt: Option<Time>)

  datatype Run = Run(
    task: Id, status: RunStatus, assignee: string, taskRevision: nat, triggeredBy: TriggeredBy,
    scheduledFor: Option<Time>, startedAt: Option<Time>, completedAt: Option<Time>,
    blockedReason: Option<string>, failedReason: Option<string>, canceledReason: Option<string>,
    resultSummary: Option<string>, createdAt: Time, updatedAt: Time)

  datatype Event = Event(run: Id, timestamp: Time, actor: string, eventType: string, summary: string)

  /** The five Work tables of one company, with the number of ids handed out so far. */
  datatype Tables = Tables(
    next: Id, tasks: map<Id, Task>, revisions: map<RevisionKey, Revision>, schedules: map<Id, Schedule>,
    runs: map<Id, Run>, events: map<Id, Event>)

  const NO_WORK := Tables(0, map[], map[], map[], map[], map[])

  /** Events have ids already handed out and belong to runs that exist. */
  ghost predicate EventsOk(w: Tables) {
    forall e :: e in w.events ==> e < w.next && w.events[e].run in w.runs
  }

  predicate IsTerminal(status: RunStatus) {
    status == Done || status == Failed || status == Canceled
  }

  predicate IsLive(status: ScheduleStatus) {
    status == Enabled || status == Paused
  }

  function AllowedRunMoves(from: RunStatus): set<RunStatus> {
    match from
    case Queued => {InProgress, Canceled}
    case InProgress => {Blocked, Done, Failed, Canceled}
    case Blocked => {Blocked, InProgress, Done, Failed, Canceled}
    case Done => {}
    case Failed => {}
    case Canceled => {}
  }

  function AllowedScheduleMoves(from: ScheduleStatus): set<ScheduleStatus> {
    match from
    case Enabled => {Paused, ScheduleCanceled, ScheduleCompleted}
    case Paused => {Enabled, ScheduleCanceled, ScheduleCompleted}
    case ScheduleCanceled => {}
    case ScheduleCompleted => {}
  }

  /** The runs of a task, oldest first, among the ids below n. */
  function RunIdsOf(runs: map<Id, Run>, task: Id, n: Id): (ids: seq<Id>)
    ensures forall i :: 0 <= i < |ids| ==> ids[i] in runs && runs[ids[i]].task == task && ids[i] < n
  {
    if n == 0 then []
    else
      var before := RunIdsOf(runs, task, n - 1);
      if n - 1 in runs && runs[n - 1].task == task then before + [n - 1] else before
  }

  /** The schedules of a task, in id order, among the ids below n. */
  function ScheduleIdsOf(schedules: map<Id, Schedule>, task: Id, n: Id): (ids: seq<Id>)
    ensures forall i :: 0 <= i < |ids| ==> ids[i] in schedules && schedules[ids[i]].task == task && ids[i] < n
  {
    if n == 0 then []
    else
      var before := ScheduleIdsOf(schedules, task, n - 1);
      if n - 1 in schedules && schedules[n - 1].task == task then before + [n - 1] else before
  }

  /** The schedule of a task, if it has one. */
  function ScheduleOf(w: Tables, task: Id): (s: Option<Id>)
    ensures s.Some? ==> s.value in w.schedules && w.schedules[s.value].task == task
  {
    var ids := ScheduleIdsOf(w.schedules, task, w.next);
    if ids == [] then None else Some(ids[0])
  }
}
