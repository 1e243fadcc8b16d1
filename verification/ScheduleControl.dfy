/** Who stops a schedule: somebody who pauses or cancels it, or cancels its task, and no outcome of a run. */
module ScheduleControl {
  import opened Prelude
  import opened WorkDomain
  import opened WorkOperations
  import opened WorkInvariants
  import opened OneShotsKept
  import opened WorkHistory
  import opened Company
  import opened CompanyInvariants
  import opened CompanyKept
  import opened CompanyHistory
  import opened CompanyTheorems

  predicate IsStopped(status: ScheduleStatus) {
    status == Paused || status == ScheduleCanceled
  }

  /** The operation asks for the schedule to be stopped in this way. */
  predicate AsksToStop(st: Store, op: Op, q: Id, status: ScheduleStatus) {
    && q in st.work.schedules
    && (|| (op.MoveScheduleOp? && op.schedule == q
            && ((op.move == Pause && status == Paused) || (op.move == CancelSchedule && status == ScheduleCanceled)))
        || (op.CancelTaskOp? && op.task == st.work.schedules[q].task && status == ScheduleCanceled))
  }

  /** Every stopped schedule was stopped before, in the same way. */
  ghost predicate StopsNothing(w: Tables, w': Tables) {
    forall q :: q in w'.schedules && IsStopped(w'.schedules[q].status) ==>
                  q in w.schedules && w.schedules[q].status == w'.schedules[q].status
  }

  // ---------------------------------------------------------------- one operation

  /** A schedule becomes paused or canceled only by an operation that asks for it. */
  lemma OnlyAskingStops(st: Store, op: Op, s: Setting, q: Id)
    requires Inv(st) && Proper(st, op)
    requires q in Step(st, op, s).work.schedules && IsStopped(Step(st, op, s).work.schedules[q].status)
    ensures var status := Step(st, op, s).work.schedules[q].status;
            AsksToStop(st, op, q, status) || (q in st.work.schedules && st.work.schedules[q].status == status)
  {
    hide InvExcept, StopsNothing, CreateWork, CreateDueRun, RetryRun, ReviseTask, MoveSchedule, CancelWorkTask;
    hide CancelWorkRun, ArchiveTask, RestoreTask, Dispatch, RetryDispatch, ExpireLeases, MoveRun, BlockRun, RecordEvent;
    hide SettleRequest, BooksOk, NonBlank;
    BooksOfCompany(st, {});
    match op
    case MoveScheduleOp(p, move, reason) => MoveScheduleStopsOne(st.work, p, move, reason, s.now, q);
    case CancelTaskOp(t, actor, reason) => CancelTaskStopsItsOwn(st, t, actor, reason, s.now, q);
    case _ =>
      OtherStepsStopNothing(st, op, s);
      NothingStopped(st.work, Step(st, op, s).work, q);
  }

  lemma NothingStopped(w: Tables, w': Tables, q: Id)
    requires StopsNothing(w, w') && q in w'.schedules && IsStopped(w'.schedules[q].status)
    ensures q in w.schedules && w.schedules[q].status == w'.schedules[q].status
  {
  }

  lemma MoveScheduleStopsOne(w: Tables, p: Id, move: ScheduleMove, reason: Option<string>, now: Time, q: Id)
    ensures var w' := MoveSchedule(w, p, move, reason, now).work;
            && w'.schedules.Keys == w.schedules.Keys
            && (q in w.schedules ==>
                  || w'.schedules[q].status == w.schedules[q].status
                  || (q == p && move == Enable && w'.schedules[q].status == Enabled)
                  || (q == p && move == Pause && w'.schedules[q].status == Paused)
                  || (q == p && move == CancelSchedule && w'.schedules[q].status == ScheduleCanceled))
  {
    hide Normalized;
  }

  lemma CancelTaskStopsItsOwn(st: Store, t: Id, actor: string, reason: Option<string>, now: Time, q: Id)
    requires BooksOk(st.work)
    ensures var w' := CancelWorkTask(st, t, actor, reason, now).store.work;
            && w'.schedules.Keys == st.work.schedules.Keys
            && (q in st.work.schedules ==>
                  || w'.schedules[q].status == st.work.schedules[q].status
                  || (st.work.schedules[q].task == t && w'.schedules[q].status == ScheduleCanceled))
  {
    hide BooksOk, CancelTask, Cleanup;
    if t in st.work.tasks {
      if CancelTask(st.work, t, actor, reason, now).result.Ok? {
        CancelTaskOnTables(st.work, t, actor, reason, now);
        CleanupOnlyClears(st.(work := CancelTask(st.work, t, actor, reason, now).work), CleanupIds(st.work, t),
                          if reason.None? || reason.value == "" then "WorkTask canceled." else reason.value, now);
      } else {
        FailedCancelChangesNothing(st.work, t, actor, reason, now);
      }
    }
  }

  // ---------------------------------------------------------------- operations that stop nothing

  lemma OtherStepsStopNothing(st: Store, op: Op, s: Setting)
    requires !op.MoveScheduleOp? && !op.CancelTaskOp?
    ensures StopsNothing(st.work, Step(st, op, s).work)
  {
    hide StopsNothing, CreateWork, CreateDueRun, RetryRun, ReviseTask, MoveSchedule, CancelWorkTask;
    hide CancelWorkRun, ArchiveTask, RestoreTask, Dispatch, RetryDispatch, ExpireLeases, MoveRun, BlockRun, RecordEvent;
    hide SettleRequest;
    match op
    case CreateWorkOp(input) => CreatingStopsNothing(st.work, input, s.directory, s.now);
    case CreateDueRunOp(q, actor) => FiringStopsNothing(st.work, q, actor, s.directory, s.now);
    case RetryRunOp(r, actor, assignee) => RetryingStopsNothing(st.work, r, actor, assignee, s.directory, s.now);
    case ReviseTaskOp(input) => RevisingStopsNothing(st.work, input, s.now);
    case CancelRunOp(r, actor, reason, summary) => CancelingARunStopsNothing(st, r, actor, reason, summary, s.now);
    case DispatchOp(createdBy) => DispatchingStopsNothing(st, createdBy, s);
    case MoveRunOp(input) => OutcomesStopNothing(st.work, input, s.now);
    case BlockRunOp(r, actor, summary, reason, channel) =>
      BlockingStopsNothing(st, r, actor, summary, reason, channel, s.now);
    case _ => QuietStepsStopNothing(st, op, s);
  }

  /** The outcome of a run leaves every schedule as it was, or completed. */
  lemma OutcomesStopNothing(w: Tables, input: MoveInput, now: Time)
    ensures StopsNothing(w, MoveRun(w, input, now).work)
  {
    hide MoveError, MovedRun, ClosesWork, ScheduleOf, RunIdsOf, SettledTask;
  }

  lemma CreatingStopsNothing(w: Tables, input: CreateInput, directory: set<string>, now: Time)
    ensures StopsNothing(w, CreateWork(w, input, directory, now).work)
  {
    hide TriggerError, NewTask, Normalized, CountRunOf, FirstRevision;
    forall v: Tables, t { CountingStopsNothing(v, t, now); }
  }

  lemma FiringStopsNothing(w: Tables, q: Id, actor: string, directory: set<string>, now: Time)
    ensures StopsNothing(w, CreateDueRun(w, q, actor, directory, now).work)
  {
    hide Normalized, ScheduleOf, FirstFilling, RunIdsOf, AdvanceSchedule, CountRunOf;
    forall t { CountingStopsNothing(w, t, now); }
    forall schedule, slot { AdvancingStopsNothing(schedule, slot, now); }
  }

  lemma CountingStopsNothing(w: Tables, t: Id, now: Time)
    ensures CountRunOf(w, t, now).schedules.Keys == w.schedules.Keys
    ensures forall q :: q in w.schedules ==> CountRunOf(w, t, now).schedules[q].status == w.schedules[q].status
  {
  }

  lemma AdvancingStopsNothing(schedule: Schedule, slot: Time, now: Time)
    ensures AdvanceSchedule(schedule, slot, now).status in {schedule.status, ScheduleCompleted}
  {
  }

  lemma RetryingStopsNothing(w: Tables, r: Id, actor: string, assignee: Option<string>, directory: set<string>,
                             now: Time)
    ensures StopsNothing(w, RetryRun(w, r, actor, assignee, directory, now).work)
  {
    hide Normalized, ScheduleOf, FirstActive, RunIdsOf;
  }

  lemma RevisingStopsNothing(w: Tables, input: ReviseInput, now: Time)
    ensures StopsNothing(w, ReviseTask(w, input, now).work)
  {
    hide ReviseTask;
    if ReviseTask(w, input, now).result.Ok? {
      ReviseTaskEffect(w, input, now);
    } else {
      FailedRevisionChangesNothing(w, input, now);
    }
  }

  lemma CancelingARunStopsNothing(st: Store, r: Id, actor: string, reason: string, summary: Option<string>, now: Time)
    ensures StopsNothing(st.work, CancelWorkRun(st, r, actor, reason, summary, now).store.work)
  {
    hide MoveRun, Cleanup;
    var input := MoveInput(r, actor, Canceled, summary, Some(reason), None);
    OutcomesStopNothing(st.work, input, now);
    CleanupOnlyClears(st, {r}, reason, now);
    CleanupOnlyClears(st.(work := MoveRun(st.work, input, now).work), {r}, reason, now);
  }

  lemma DispatchingStopsNothing(st: Store, createdBy: string, s: Setting)
    ensures StopsNothing(st.work, Dispatch(st, createdBy, s).store.work)
  {
    hide NextCandidate, AcknowledgeLease, FailPendingLease, MoveRun, LatestIs, IsExplicitRetry, StartInput;
    match NextCandidate(st)
    case None =>
    case Some(r) =>
      var leased, assignee := LeaseFor(st, r, createdBy, s), st.work.runs[r].assignee;
      LeasesAreNotTables(leased, r, assignee, s.now);
      OutcomesStopNothing(leased.work, StartInput(r, assignee), s.now);
  }

  lemma LeasesAreNotTables(st: Store, r: Id, assignee: string, now: Time)
    ensures AcknowledgeLease(st, r, assignee, now).work == FailPendingLease(st, r, UNRESOLVED, now).work == st.work
  {
  }

  lemma BlockingStopsNothing(st: Store, r: Id, actor: string, summary: Option<string>, reason: Option<string>,
                             channel: Channel, now: Time)
    ensures StopsNothing(st.work, BlockRun(st, r, actor, summary, reason, channel, now).store.work)
  {
    hide MoveRun, OpenRecovery, RequestsGoOn, FailBlocked;
    var input := MoveInput(r, actor, Blocked, summary, reason, None);
    OutcomesStopNothing(st.work, input, now);
    var blocked := st.(work := MoveRun(st.work, input, now).work);
    OpenRecoveryShape(blocked, r, channel, now);
    var opening := OpenRecovery(blocked, r, channel, now);
    if opening.failure.Some? { FailingStopsNothing(opening.store, r, actor, opening.failure.value, now); }
  }

  lemma FailingStopsNothing(st: Store, r: Id, actor: string, message: string, now: Time)
    ensures StopsNothing(st.work, FailBlocked(st, r, actor, message, now).store.work)
  {
    hide MoveRun, StopsNothing;
    OutcomesStopNothing(st.work, GivingUp(r, actor, message), now);
  }

  lemma QuietStepsStopNothing(st: Store, op: Op, s: Setting)
    requires op.ArchiveTaskOp? || op.RestoreTaskOp? || op.RetryDispatchOp? || op.ExpireLeasesOp? || op.RemarkOp?
             || op.SettleRequestOp?
    ensures StopsNothing(st.work, Step(st, op, s).work)
  {
    hide CreateWork, CreateDueRun, RetryRun, ReviseTask, MoveSchedule, CancelWorkTask, CancelWorkRun, Dispatch, MoveRun;
    hide BlockRun, Normalized, StatusBeforeArchive, Latest;
    assert Step(st, op, s).work.schedules == st.work.schedules;
  }

  // ---------------------------------------------------------------- runs of the system

  /** Some step of the run asks for the schedule to be stopped in this way. */
  predicate IsAskedToStop(st: Store, turns: seq<Turn>, q: Id, status: ScheduleStatus)
    decreases |turns|
  {
    && turns != []
    && (|| AsksToStop(st, turns[0].op, q, status)
        || IsAskedToStop(Step(st, turns[0].op, turns[0].setting), turns[1..], q, status))
  }

  /** In every continuation of a reachable state, a schedule that has become paused or canceled was asked to,
      whatever has come of the runs. */
  lemma {:induction false} StoppedSchedulesWereAskedTo(st: Store, turns: seq<Turn>, q: Id)
    requires Inv(st) && AllProper(st, turns)
    requires q in After(st, turns).work.schedules && IsStopped(After(st, turns).work.schedules[q].status)
    ensures var status := After(st, turns).work.schedules[q].status;
            IsAskedToStop(st, turns, q, status) || (q in st.work.schedules && st.work.schedules[q].status == status)
    decreases |turns|
  {
    hide InvExcept, Step, Proper, AsksToStop, IsStopped;
    if turns != [] {
      var turn := turns[0];
      var next := Step(st, turn.op, turn.setting);
      StepKeepsCompany(st, turn.op, turn.setting, {});
      StoppedSchedulesWereAskedTo(next, turns[1..], q);
      var status := After(st, turns).work.schedules[q].status;
      if !IsAskedToStop(next, turns[1..], q, status) { OnlyAskingStops(st, turn.op, turn.setting, q); }
    }
  }

  /** So every stopped schedule of a reachable state was asked to stop on the way there. */
  lemma EveryStopWasAskedFor(turns: seq<Turn>, q: Id)
    requires AllProper(NEW_COMPANY, turns)
    requires q in After(NEW_COMPANY, turns).work.schedules
    requires IsStopped(After(NEW_COMPANY, turns).work.schedules[q].status)
    ensures IsAskedToStop(NEW_COMPANY, turns, q, After(NEW_COMPANY, turns).work.schedules[q].status)
  {
    hide InvExcept, Step, Proper;
    NewCompanyIsInOrder();
    StoppedSchedulesWereAskedTo(NEW_COMPANY, turns, q);
  }
}
