/** Queued runs of tasks that are no longer active: which steps make them, and that they are dispatched. */
module LeftoverRuns {
  import opened Prelude
  import opened WorkDomain
  import opened WorkOperations
  import opened RunLog
  import opened WorkInvariants
  import opened RecordsKept
  import opened SchedulesKept
  import opened OneShotsKept
  import opened BooksKept
  import opened WorkEffects
  import opened WorkHistory
  import opened Company
  import opened CompanyInvariants
  import opened CompanyKept
  import opened CompanyHistory
  import opened CompanyTheorems
  import opened DispatchOrder
  import opened Interference
  import opened Exclusivity

  /** A run that waits although its task is over. */
  predicate IsLeftover(w: Tables, r: Id) {
    && r in w.runs && w.runs[r].status == Queued
    && w.runs[r].task in w.tasks && w.tasks[w.runs[r].task].status != Active
  }

  /** Another run of the task ends it, as its limit is reached. */
  ghost predicate EndsTheTask(w: Tables, q: Id, status: RunStatus, r: Id) {
    && q in w.runs && r in w.runs && q != r && w.runs[q].task == w.runs[r].task
    && status in {Done, Canceled} && LimitReached(w, w.runs[r].task)
  }

  /** The steps that leave the queued run over: canceling the schedule of its task, and, once the limit is
      reached, completing or canceling another run of it. */
  ghost predicate LeavesOver(st: Store, op: Op, r: Id) {
    && r in st.work.runs && st.work.runs[r].status == Queued
    && match op
       case MoveScheduleOp(p, move, _) =>
         && move == CancelSchedule && p in st.work.schedules && IsLive(st.work.schedules[p].status)
         && st.work.schedules[p].task == st.work.runs[r].task
       case MoveRunOp(input) =>
         EndsTheTask(st.work, input.run, input.status, r) && MayMove(st.work.runs[input.run], input)
       case CancelRunOp(q, _, why, _) =>
         EndsTheTask(st.work, q, Canceled, r) && !IsTerminal(st.work.runs[q].status) && NonBlank(why)
       case _ => false
  }

  /** Every leftover was one before. */
  ghost predicate LeavesNothingOver(w: Tables, w': Tables) {
    forall r :: IsLeftover(w', r) ==> IsLeftover(w, r)
  }

  // ---------------------------------------------------------------- steps that leave nothing over

  ghost predicate NoNewQueued(w: Tables, w': Tables) {
    forall r :: r in w'.runs && w'.runs[r].status == Queued ==>
                  r in w.runs && w.runs[r].status == Queued && w.runs[r].task == w'.runs[r].task
  }

  ghost predicate StayActive(w: Tables, w': Tables) {
    forall t :: t in w.tasks && w.tasks[t].status == Active ==> t in w'.tasks && w'.tasks[t].status == Active
  }

  ghost predicate RunsHaveTheirTasks(w: Tables) {
    forall r :: r in w.runs ==> w.runs[r].task in w.tasks
  }

  lemma CalmStepsLeaveNothing(w: Tables, w': Tables)
    requires RunsHaveTheirTasks(w) && NoNewQueued(w, w') && StayActive(w, w')
    ensures LeavesNothingOver(w, w')
  {
  }

  lemma NewActiveRunLeavesNothing(w: Tables, w': Tables, q: Id)
    requires RunsHaveTheirTasks(w) && StayActive(w, w') && q in w'.runs && w'.runs == w.runs[q := w'.runs[q]]
    requires w'.runs[q].task in w'.tasks && w'.tasks[w'.runs[q].task].status == Active
    ensures LeavesNothingOver(w, w')
  {
  }

  lemma CreatingLeavesNothing(w: Tables, input: CreateInput, directory: set<string>, now: Time)
    requires BooksOk(w)
    ensures LeavesNothingOver(w, CreateWork(w, input, directory, now).work)
  {
    hide BooksOk, RecordsOk, SchedulesOk, LivesOk, LogsOk, RefsOk, CreateWork, EventsOk;
    var w' := CreateWork(w, input, directory, now).work;
    if CreateWork(w, input, directory, now).result.Ok? {
      BooksHaveGroups(w);
      RunsHaveTasks(w);
      CreateWorkEffect(w, input, directory, now);
      hide LeavesNothingOver;
      if NeedsSchedule(input.kind) {
        CalmStepsLeaveNothing(w, w');
      } else {
        NewActiveRunLeavesNothing(w, w', w.next + 1);
      }
    } else {
      FailedCreationChangesNothing(w, input, directory, now);
    }
  }

  lemma FiringLeavesNothing(w: Tables, p: Id, actor: string, directory: set<string>, now: Time)
    requires BooksOk(w) && NonBlank(actor)
    ensures LeavesNothingOver(w, CreateDueRun(w, p, actor, directory, now).work)
  {
    hide BooksOk, RecordsOk, SchedulesOk, LivesOk, LogsOk, RefsOk, CreateDueRun, EventsOk, NonBlank, AdvanceSchedule;
    var w' := CreateDueRun(w, p, actor, directory, now).work;
    if CreateDueRun(w, p, actor, directory, now).result.Ok? {
      BooksHaveGroups(w);
      RunsHaveTasks(w);
      CreateDueRunEffect(w, p, actor, directory, now);
      FiringFindsNoRuns(w, p);
      hide LeavesNothingOver;
      NewActiveRunLeavesNothing(w, w', w.next);
    } else {
      FailedFiringChangesNothing(w, p, actor, directory, now);
    }
  }

  lemma RetryingLeavesNothing(w: Tables, r: Id, actor: string, assignee: Option<string>, directory: set<string>,
                              now: Time)
    requires BooksOk(w)
    ensures LeavesNothingOver(w, RetryRun(w, r, actor, assignee, directory, now).work)
  {
    hide BooksOk, RecordsOk, SchedulesOk, LivesOk, LogsOk, RefsOk, RetryRun, EventsOk, CountRunOf;
    var w' := RetryRun(w, r, actor, assignee, directory, now).work;
    if RetryRun(w, r, actor, assignee, directory, now).result.Ok? {
      BooksHaveGroups(w);
      RunsHaveTasks(w);
      RetryEffect(w, r, actor, assignee, directory, now);
      RetryGuards(w, r, actor, assignee, directory, now);
      hide LeavesNothingOver;
      NewActiveRunLeavesNothing(w, w', w.next);
    } else {
      FailedRetryChangesNothing(w, r, actor, assignee, directory, now);
    }
  }

  lemma RevisingLeavesNothing(w: Tables, input: ReviseInput, now: Time)
    requires BooksOk(w)
    ensures LeavesNothingOver(w, ReviseTask(w, input, now).work)
  {
    hide BooksOk, ReviseTask;
    RunsHaveTasks(w);
    if ReviseTask(w, input, now).result.Ok? {
      ReviseTaskEffect(w, input, now);
      hide LeavesNothingOver;
      CalmStepsLeaveNothing(w, ReviseTask(w, input, now).work);
    } else {
      FailedRevisionChangesNothing(w, input, now);
    }
  }

  lemma CancelingATaskLeavesNothing(st: Store, t: Id, actor: string, reason: Option<string>, now: Time)
    requires BooksOk(st.work)
    ensures LeavesNothingOver(st.work, CancelWorkTask(st, t, actor, reason, now).store.work)
  {
    hide BooksOk, CancelTask, Cleanup, CancelSchedules;
    RunsHaveTasks(st.work);
    if t in st.work.tasks {
      if CancelTask(st.work, t, actor, reason, now).result.Ok? {
        CancelTaskOnTables(st.work, t, actor, reason, now);
        CleanupOnlyClears(st.(work := CancelTask(st.work, t, actor, reason, now).work), CleanupIds(st.work, t),
                          if reason.None? || reason.value == "" then "WorkTask canceled." else reason.value, now);
      } else {
        FailedCancelChangesNothing(st.work, t, actor, reason, now);
      }
    }
  }

  lemma ArchivingLeavesNothing(w: Tables, t: Id, actor: string, reason: Option<string>, now: Time)
    requires RunsHaveTheirTasks(w)
    ensures LeavesNothingOver(w, ArchiveTask(w, t, actor, reason, now).work)
  {
    hide Normalized, ArchivedTask, LeavesNothingOver, RunsHaveTheirTasks;
    InactiveTaskLeavesNothing(w, ArchiveTask(w, t, actor, reason, now).work, t);
  }

  lemma RestoringLeavesNothing(w: Tables, t: Id, actor: string, now: Time)
    requires RunsHaveTheirTasks(w)
    ensures LeavesNothingOver(w, RestoreTask(w, t, actor, now).work)
  {
    hide Normalized, StatusBeforeArchive, LeavesNothingOver, RunsHaveTheirTasks;
    InactiveTaskLeavesNothing(w, RestoreTask(w, t, actor, now).work, t);
  }

  lemma InactiveTaskLeavesNothing(w: Tables, w': Tables, t: Id)
    requires RunsHaveTheirTasks(w) && w'.runs == w.runs
    requires w' == w
             || (t in w.tasks && w.tasks[t].status != Active && t in w'.tasks && w'.tasks == w.tasks[t := w'.tasks[t]])
    ensures LeavesNothingOver(w, w')
  {
  }

  lemma SameTablesLeaveNothing(w: Tables, w': Tables)
    requires w'.runs == w.runs && w'.tasks == w.tasks
    ensures LeavesNothingOver(w, w')
  {
  }

  lemma QuietStepsLeaveNothing(st: Store, op: Op, s: Setting)
    requires op.RetryDispatchOp? || op.ExpireLeasesOp? || op.RemarkOp? || op.SettleRequestOp?
    ensures LeavesNothingOver(st.work, Step(st, op, s).work)
  {
    hide CreateWork, CreateDueRun, RetryRun, ReviseTask, MoveSchedule, CancelWorkTask, CancelWorkRun, Dispatch, MoveRun;
    hide BlockRun, Normalized, Latest, LeavesNothingOver, ArchiveTask, RestoreTask;
    SameTablesLeaveNothing(st.work, Step(st, op, s).work);
  }

  // ---------------------------------------------------------------- the end of a run

  /** A one-shot task never has two open runs. */
  lemma OpenRunsAreRecurring(w: Tables, q: Id, r: Id)
    requires BooksOk(w) && q in w.runs && r in w.runs && q != r && w.runs[q].task == w.runs[r].task
    requires !IsTerminal(w.runs[q].status) && !IsTerminal(w.runs[r].status)
    ensures !IsOneShotTask(w, w.runs[r].task)
  {
    hide BooksOk, IsOneShotTask;
    RunsHaveTasks(w);
    if IsOneShotTask(w, w.runs[r].task) { OneShotOfBooks(w, w.runs[r].task); }
  }

  lemma MoveLeavesOver(w: Tables, input: MoveInput, now: Time, r: Id)
    requires BooksOk(w) && NonBlank(input.actor) && input.run in w.runs && !IsLeftover(w, r)
    ensures IsLeftover(MoveRun(w, input, now).work, r) <==>
            && r in w.runs && w.runs[r].status == Queued
            && EndsTheTask(w, input.run, input.status, r) && MayMove(w.runs[input.run], input)
  {
    hide BooksOk, MoveRun, NonBlank, LimitReached, IsOneShotTask, MoveIsLogged, ScheduleHasSettled;
    MoveRunIsAcceptedExactly(w, input, now);
    RunsHaveTasks(w);
    if MoveRun(w, input, now).result.Ok? {
      MoveRunMeans(w, input, now);
      if r in w.runs && r != input.run && w.runs[r].task == w.runs[input.run].task && w.runs[r].status == Queued {
        OpenRunsAreRecurring(w, input.run, r);
      }
    }
  }

  /** A move that does not end well leaves nothing over. */
  lemma UnendingMoveLeavesNothing(w: Tables, input: MoveInput, now: Time)
    requires BooksOk(w) && NonBlank(input.actor) && input.run in w.runs && input.status !in {Done, Canceled}
    ensures LeavesNothingOver(w, MoveRun(w, input, now).work)
  {
    hide BooksOk, MoveRun, NonBlank, MayMove, LimitReached, IsLeftover;
    forall r | IsLeftover(MoveRun(w, input, now).work, r) ensures IsLeftover(w, r) {
      if !IsLeftover(w, r) { MoveLeavesOver(w, input, now, r); }
    }
  }

  lemma CancelRunLeavesOver(st: Store, q: Id, actor: string, why: string, summary: Option<string>, now: Time, r: Id)
    requires BooksOk(st.work) && NonBlank(actor) && !IsLeftover(st.work, r)
    ensures IsLeftover(CancelWorkRun(st, q, actor, why, summary, now).store.work, r) <==>
            && r in st.work.runs && st.work.runs[r].status == Queued
            && EndsTheTask(st.work, q, Canceled, r) && !IsTerminal(st.work.runs[q].status) && NonBlank(why)
  {
    hide BooksOk, MoveRun, Cleanup, NonBlank, LimitReached, IsLeftover;
    if q in st.work.runs && !IsTerminal(st.work.runs[q].status) {
      var input := MoveInput(q, actor, Canceled, summary, Some(why), None);
      MoveLeavesOver(st.work, input, now, r);
      CancelingDecides(st.work, input, now);
      MoveRunIsAcceptedExactly(st.work, input, now);
      CleanupOnlyClears(st.(work := MoveRun(st.work, input, now).work), {q}, why, now);
    } else {
      CleanupOnlyClears(st, {q}, why, now);
    }
  }

  lemma MoveScheduleLeavesOver(w: Tables, p: Id, move: ScheduleMove, reason: Option<string>, now: Time, r: Id)
    requires RunsHaveTheirTasks(w) && !IsLeftover(w, r)
    ensures IsLeftover(MoveSchedule(w, p, move, reason, now).work, r) <==>
            && r in w.runs && w.runs[r].status == Queued
            && move == CancelSchedule && p in w.schedules && IsLive(w.schedules[p].status)
            && w.schedules[p].task == w.runs[r].task
  {
    hide Normalized;
  }

  lemma BlockingLeavesNothing(st: Store, q: Id, actor: string, summary: Option<string>, reason: Option<string>,
                              channel: Channel, s: Setting)
    requires Inv(st) && NonBlank(actor) && Started(st, q)
    ensures LeavesNothingOver(st.work, BlockRun(st, q, actor, summary, reason, channel, s.now).store.work)
  {
    hide InvExcept, MoveRun, OpenRecovery, FailBlocked, BooksOk, RequestsGoOn, NonBlank, LeavesNothingOver;
    var input := MoveInput(q, actor, Blocked, summary, reason, None);
    BooksOfCompany(st, {});
    UnendingMoveLeavesNothing(st.work, input, s.now);
    if MoveRun(st.work, input, s.now).result.Ok? {
      var blocked := st.(work := MoveRun(st.work, input, s.now).work);
      OpenRecoveryShape(blocked, q, channel, s.now);
      BlockedBooks(st, input, channel, s, {});
      MoveRunMoves(st.work, input, s.now);
      var opening := OpenRecovery(blocked, q, channel, s.now);
      SameTablesLeaveNothing(blocked.work, opening.store.work);
      if opening.failure.Some? { FailingLeavesNothing(opening.store, q, actor, opening.failure.value, s.now); }
      ChainedStepsLeaveNothing(st.work, blocked.work, opening.store.work);
      ChainedStepsLeaveNothing(st.work, opening.store.work, AfterOpening(opening, q, actor, s.now).store.work);
    }
  }

  lemma ChainedStepsLeaveNothing(a: Tables, b: Tables, c: Tables)
    ensures LeavesNothingOver(a, b) && LeavesNothingOver(b, c) ==> LeavesNothingOver(a, c)
    ensures LeavesNothingOver(b, b)
  {
    hide IsLeftover;
  }

  lemma FailingLeavesNothing(st: Store, q: Id, actor: string, message: string, now: Time)
    requires BooksOk(st.work) && NonBlank(actor) && q in st.work.runs
    ensures LeavesNothingOver(st.work, FailBlocked(st, q, actor, message, now).store.work)
  {
    hide BooksOk, MoveRun, NonBlank, LeavesNothingOver;
    UnendingMoveLeavesNothing(st.work, GivingUp(q, actor, message), now);
  }

  lemma DispatchingLeavesNothing(st: Store, createdBy: string, s: Setting)
    requires Inv(st)
    ensures LeavesNothingOver(st.work, Dispatch(st, createdBy, s).store.work)
  {
    hide InvExcept, NextCandidate, LeaseFor, AcknowledgeLease, FailPendingLease, MoveRun, LeasesGoOn, StartInput;
    hide NonBlank, LeavesNothingOver;
    ChainedStepsLeaveNothing(st.work, st.work, st.work);
    match NextCandidate(st)
    case None =>
    case Some(q) =>
      var leased, assignee := LeaseFor(st, q, createdBy, s), st.work.runs[q].assignee;
      LeaseForKeepsCompany(st, q, createdBy, s, {});
      SameTablesLeaveNothing(st.work, leased.work);
      if assignee !in s.homes {
        FailPendingTouchesLeases(leased, q, UNRESOLVED, s.now);
      } else {
        BooksOfCompany(leased, {});
        AssigneeIsNamed(leased.work, q);
        TakenLeases(leased, q, assignee, s.now);
        StartingLeavesNothing(leased.work, q, assignee, s.now);
        ChainedStepsLeaveNothing(st.work, leased.work, MoveRun(leased.work, StartInput(q, assignee), s.now).work);
      }
  }

  lemma StartingLeavesNothing(w: Tables, q: Id, assignee: string, now: Time)
    requires BooksOk(w) && NonBlank(assignee) && q in w.runs
    ensures LeavesNothingOver(w, MoveRun(w, StartInput(q, assignee), now).work)
  {
    hide BooksOk, MoveRun, NonBlank, LeavesNothingOver;
    UnendingMoveLeavesNothing(w, StartInput(q, assignee), now);
  }

  // ---------------------------------------------------------------- every operation, every run

  /** A run becomes a leftover by these steps and by no other. */
  lemma LeftoversAreMadeExactly(st: Store, op: Op, s: Setting, r: Id)
    requires Inv(st) && Proper(st, op) && !IsLeftover(st.work, r)
    ensures IsLeftover(Step(st, op, s).work, r) <==> LeavesOver(st, op, r)
  {
    hide InvExcept, CreateWork, CreateDueRun, RetryRun, ReviseTask, MoveSchedule, CancelWorkTask, CancelWorkRun;
    hide ArchiveTask, RestoreTask, Dispatch, RetryDispatch, ExpireLeases, MoveRun, BlockRun, RecordEvent;
    hide SettleRequest, BooksOk, NonBlank, IsLeftover, LimitReached, MayMove;
    BooksOfCompany(st, {});
    match op
    case MoveScheduleOp(p, move, reason) =>
      RunsHaveTasks(st.work);
      MoveScheduleLeavesOver(st.work, p, move, reason, s.now, r);
    case MoveRunOp(input) => MoveLeavesOver(st.work, input, s.now, r);
    case CancelRunOp(q, actor, why, summary) => CancelRunLeavesOver(st, q, actor, why, summary, s.now, r);
    case _ => OtherStepsLeaveNothing(st, op, s);
  }

  lemma OtherStepsLeaveNothing(st: Store, op: Op, s: Setting)
    requires Inv(st) && Proper(st, op) && !op.MoveScheduleOp? && !op.MoveRunOp? && !op.CancelRunOp?
    ensures LeavesNothingOver(st.work, Step(st, op, s).work)
  {
    hide InvExcept, CreateWork, CreateDueRun, RetryRun, ReviseTask, MoveSchedule, CancelWorkTask, CancelWorkRun;
    hide ArchiveTask, RestoreTask, Dispatch, RetryDispatch, ExpireLeases, MoveRun, BlockRun, RecordEvent;
    hide SettleRequest, BooksOk, NonBlank, LeavesNothingOver;
    BooksOfCompany(st, {});
    RunsHaveTasks(st.work);
    match op
    case CreateWorkOp(input) => CreatingLeavesNothing(st.work, input, s.directory, s.now);
    case CreateDueRunOp(p, actor) => FiringLeavesNothing(st.work, p, actor, s.directory, s.now);
    case RetryRunOp(q, actor, assignee) => RetryingLeavesNothing(st.work, q, actor, assignee, s.directory, s.now);
    case ReviseTaskOp(input) => RevisingLeavesNothing(st.work, input, s.now);
    case CancelTaskOp(t, actor, reason) => CancelingATaskLeavesNothing(st, t, actor, reason, s.now);
    case ArchiveTaskOp(t, actor, reason) => ArchivingLeavesNothing(st.work, t, actor, reason, s.now);
    case RestoreTaskOp(t, actor) => RestoringLeavesNothing(st.work, t, actor, s.now);
    case DispatchOp(createdBy) => DispatchingLeavesNothing(st, createdBy, s);
    case BlockRunOp(q, actor, summary, reason, channel) =>
      BlockingLeavesNothing(st, q, actor, summary, reason, channel, s);
    case _ => QuietStepsLeaveNothing(st, op, s);
  }

  /** Some step of the run leaves the run over. */
  ghost predicate SomeStepLeavesOver(st: Store, turns: seq<Turn>, r: Id)
    decreases |turns|
  {
    && turns != []
    && (LeavesOver(st, turns[0].op, r) || SomeStepLeavesOver(Step(st, turns[0].op, turns[0].setting), turns[1..], r))
  }

  /** So a run of the system without such a step never has a queued run whose task is over. */
  lemma {:induction false} LeftoversWereLeftOver(st: Store, turns: seq<Turn>, r: Id)
    requires Inv(st) && AllProper(st, turns) && IsLeftover(After(st, turns).work, r)
    ensures SomeStepLeavesOver(st, turns, r) || IsLeftover(st.work, r)
    decreases |turns|
  {
    hide InvExcept, Step, Proper, LeavesOver, IsLeftover;
    if turns != [] {
      var turn := turns[0];
      var next := Step(st, turn.op, turn.setting);
      StepKeepsCompany(st, turn.op, turn.setting, {});
      LeftoversWereLeftOver(next, turns[1..], r);
      if IsLeftover(next.work, r) && !IsLeftover(st.work, r) {
        LeftoversAreMadeExactly(st, turn.op, turn.setting, r);
      }
    }
  }

  // ---------------------------------------------------------------- a leftover that is dispatched

  /** Recurring work for A from time 0 on. */
  function StandingOrder(): CreateInput {
    Order().(kind := Recurring, scheduledFor := Some(0), intervalMs := Some(1))
  }

  lemma StandingOrderIsDue(w: Tables)
    ensures var w' := CreateWork(w, StandingOrder(), {"A"}, 0).work;
            && w'.runs == w.runs && w.next in w'.tasks && w'.tasks[w.next].owner == "A" && w.next + 1 in w'.schedules
            && var schedule := w'.schedules[w.next + 1];
               && schedule.status == Enabled && schedule.nextRunAt == Some(0) && schedule.task == w.next
               && schedule.kind == Recurring && schedule.maxRuns.None?
  {
    OneLetterTexts();
    hide Normalized, ScheduleOf;
    assert Normalized(None).None? by { NoTextIsNoText(); }
  }

  lemma DueScheduleFires(w: Tables, p: Id, actor: string, directory: set<string>, now: Time)
    requires BooksOk(w) && NonBlank(actor) && p in w.schedules && w.schedules[p].status == Enabled
    requires w.schedules[p].nextRunAt.Some? && w.schedules[p].nextRunAt.value <= now
    requires w.schedules[p].task in w.tasks && w.tasks[w.schedules[p].task].owner in directory
    ensures var w' := CreateDueRun(w, p, actor, directory, now).work;
            && w.next in w'.runs && w'.runs == w.runs[w.next := w'.runs[w.next]] && w'.runs[w.next].status == Queued
            && w'.runs[w.next].task == w.schedules[p].task && w'.tasks == w.tasks
            && w'.runs[w.next].assignee == w.tasks[w.schedules[p].task].owner
            && p in w'.schedules && w'.schedules[p].task == w.schedules[p].task
            && (w.schedules[p].kind == Recurring && w.schedules[p].maxRuns.None? ==> w'.schedules[p].status == Enabled)
  {
    hide BooksOk, RecordsOk, SchedulesOk, LivesOk, LogsOk, RefsOk, EventsOk, AdvanceSchedule, FirstFilling, RunIdsOf;
    hide ScheduleOf;
    BooksHaveGroups(w);
    assert CreateDueRun(w, p, actor, directory, now).result.Ok?;
    hide CreateDueRun;
    CreateDueRunEffect(w, p, actor, directory, now);
    AdvancedKeepsKind(w.schedules[p], now);
    if w.schedules[p].kind == Recurring && w.schedules[p].maxRuns.None? {
      UnlimitedSchedulesGoOn(w.schedules[p], w.schedules[p].nextRunAt.value, now);
    }
  }

  lemma UnlimitedSchedulesGoOn(schedule: Schedule, slot: Time, now: Time)
    requires schedule.kind == Recurring && schedule.maxRuns.None?
    ensures AdvanceSchedule(CountRun(schedule, now), slot, now).status == schedule.status
  {
  }

  /** A run of A waits, the schedule that fired it is enabled, and there is no lease. */
  ghost predicate OneIsDue(st: Store, r: Id, p: Id) {
    && Reachable(st) && st.work.runs.Keys == {r} && st.leases == map[]
    && st.work.runs[r].status == Queued && st.work.runs[r].assignee == "A" && st.work.runs[r].task in st.work.tasks
    && p in st.work.schedules && st.work.schedules[p].task == st.work.runs[r].task
    && st.work.schedules[p].status == Enabled
  }

  lemma StandingOrderSteps(st: Store, p: Id)
    ensures Step(st, CreateWorkOp(StandingOrder()), NOON)
            == st.(work := CreateWork(st.work, StandingOrder(), {"A"}, 0).work)
    ensures Step(st, CreateDueRunOp(p, "A"), NOON) == st.(work := CreateDueRun(st.work, p, "A", {"A"}, 0).work)
    ensures Step(st, MoveScheduleOp(p, CancelSchedule, None), NOON)
            == st.(work := MoveSchedule(st.work, p, CancelSchedule, None, 0).work)
    ensures Proper(st, CreateWorkOp(StandingOrder())) && Proper(st, MoveScheduleOp(p, CancelSchedule, None))
            && Proper(st, DispatchOp(""))
  {
    hide CreateWork, CreateDueRun, MoveSchedule, StandingOrder;
  }

  lemma OneFallsDue() returns (st: Store, r: Id, p: Id)
    ensures OneIsDue(st, r, p)
  {
    hide Reachable, Step, CreateWork, StandingOrder, CreateDueRun, BooksOk, InvExcept, NonBlank;
    NewCompanyIsReachable();
    StandingOrderIsDue(NO_WORK);
    StandingOrderSteps(NEW_COMPANY, 1);
    OneLetterTexts();
    var st1 := Step(NEW_COMPANY, CreateWorkOp(StandingOrder()), NOON);
    ReachableStep(NEW_COMPANY, CreateWorkOp(StandingOrder()), NOON);
    ReachableIsInOrder(st1);
    p, r := 1, st1.work.next;
    DueScheduleFires(st1.work, p, "A", {"A"}, 0);
    StandingOrderSteps(st1, p);
    assert Proper(st1, CreateDueRunOp(p, "A"));
    st := Step(st1, CreateDueRunOp(p, "A"), NOON);
    ReachableStep(st1, CreateDueRunOp(p, "A"), NOON);
  }

  lemma CanceledScheduleKeepsRuns(w: Tables, p: Id)
    ensures var w' := MoveSchedule(w, p, CancelSchedule, None, 0).work;
            && w'.runs == w.runs && w'.tasks.Keys >= w.tasks.Keys
            && forall t :: t in w.tasks && w.tasks[t].status != Active ==> w'.tasks[t].status != Active
  {
  }

  lemma DispatchKeepsTasks(st: Store, createdBy: string, s: Setting)
    ensures Dispatch(st, createdBy, s).store.work.tasks == st.work.tasks
  {
    hide NextCandidate, AcknowledgeLease, FailPendingLease, MoveRun, LatestIs, IsExplicitRetry, StartInput;
    match NextCandidate(st)
    case None =>
    case Some(q) =>
      var leased, assignee := LeaseFor(st, q, createdBy, s), st.work.runs[q].assignee;
      TakenLeases(leased, q, assignee, s.now);
      FailPendingTouchesLeases(leased, q, UNRESOLVED, s.now);
      StartingKeepsTasks(leased.work, q, assignee, s.now);
  }

  lemma StartingKeepsTasks(w: Tables, q: Id, assignee: string, now: Time)
    ensures MoveRun(w, StartInput(q, assignee), now).work.tasks == w.tasks
  {
    hide MoveError, MovedRun;
  }

  /** The dispatcher reads no task status: a run of the system in which a canceled task's run goes out. */
  lemma ALeftoverIsDispatched()
    ensures exists st, r :: Reachable(st) && r in st.work.runs && st.work.runs[r].status == InProgress
                            && st.work.runs[r].task in st.work.tasks
                            && st.work.tasks[st.work.runs[r].task].status != Active
  {
    hide Reachable, Step, MoveSchedule, BooksOk, InvExcept, NextCandidate, Dispatch, Proper;
    var st0, r, p := OneFallsDue();
    var op := MoveScheduleOp(p, CancelSchedule, None);
    StandingOrderSteps(st0, p);
    ReachableIsInOrder(st0);
    var st1 := Step(st0, op, NOON);
    ReachableStep(st0, op, NOON);
    ReachableIsInOrder(st1);
    StandingOrderSteps(st1, p);
    CanceledScheduleKeepsRuns(st0.work, p);
    assert LeavesOver(st0, op, r);
    if !IsLeftover(st0.work, r) { LeftoversAreMadeExactly(st0, op, NOON, r); }
    SomeRunIsChosen(st1, r);
    DispatchStarts(st1, "", NOON, r);
    DispatchKeepsTasks(st1, "", NOON);
    DispatchIsAStep(st1, "", NOON);
    ReachableStep(st1, DispatchOp(""), NOON);
    assert Reachable(Step(st1, DispatchOp(""), NOON));
  }
}
