/** What everybody else may do to the company while an executor waits, and what that can mean for the run
    the executor works on: its cancellation, and nothing else. */
module Interference {
  import opened Prelude
  import opened WorkDomain
  import opened WorkOperations
  import opened WorkInvariants
  import opened OneShotsKept
  import opened WorkHistory
  import opened Company
  import opened CompanyInvariants
  import opened CompanyKept
  import opened CompanyHistory
  import opened DispatchOrder

  /** Any proper operation but the moves of this run's own executor, and but a dispatch before the run has
      started. */
  predicate MayInterfere(st: Store, op: Op, r: Id) {
    && Proper(st, op)
    && (op.DispatchOp? ==> Started(st, r))
    && !(op.MoveRunOp? && op.moved.run == r)
    && !(op.BlockRunOp? && op.run == r)
  }

  /** The state after those of the turns that may interfere. */
  function Interfered(st: Store, r: Id, turns: seq<Turn>): Store
    decreases |turns|
  {
    if turns == [] then st
    else if MayInterfere(st, turns[0].op, r) then Interfered(Step(st, turns[0].op, turns[0].setting), r, turns[1..])
    else Interfered(st, r, turns[1..])
  }

  predicate OnlyCancels(a: RunStatus, b: RunStatus) {
    b == a || (b == Canceled && !IsTerminal(a))
  }

  /** No lease of the run waits to be taken or retried. */
  predicate NoLeaseWaits(st: Store, r: Id) {
    !LatestIs(st, r, {Pending, LeaseFailed})
  }

  /** The run is there, and went on or was canceled. */
  predicate RunSurvives(st: Store, st': Store, r: Id) {
    r in st.work.runs ==> r in st'.work.runs && OnlyCancels(st.work.runs[r].status, st'.work.runs[r].status)
  }

  // ---------------------------------------------------------------- one operation

  lemma OtherMoveLeavesRun(w: Tables, input: MoveInput, now: Time, r: Id)
    requires BooksOk(w) && NonBlank(input.actor) && input.run != r && r in w.runs
    ensures r in MoveRun(w, input, now).work.runs && MoveRun(w, input, now).work.runs[r] == w.runs[r]
  {
    hide BooksOk, MoveRun;
    MoveRunChangesOne(w, input, now);
  }

  lemma OtherBlockLeavesRun(st: Store, q: Id, actor: string, summary: Option<string>, reason: Option<string>,
                            channel: Channel, now: Time,
                            r: Id, except: set<Id>)
    requires InvExcept(st, except) && NonBlank(actor) && Started(st, q) && q != r && r in st.work.runs
    ensures var st' := BlockRun(st, q, actor, summary, reason, channel, now).store;
            r in st'.work.runs && st'.work.runs[r] == st.work.runs[r]
  {
    hide InvExcept, MoveRun, OpenRecovery, BooksOk, RequestsGoOn, NonBlank, AfterOpening;
    var input := MoveInput(q, actor, Blocked, summary, reason, None);
    BooksOfCompany(st, except);
    OtherMoveLeavesRun(st.work, input, now, r);
    if MoveRun(st.work, input, now).result.Ok? {
      var blocked := st.(work := MoveRun(st.work, input, now).work);
      OpenRecoveryShape(blocked, q, channel, now);
      BlockedBooks(st, input, channel, Setting({}, {}, now, 0), except);
      AfterOpeningLeavesRun(OpenRecovery(blocked, q, channel, now), q, actor, now, r);
    }
  }

  lemma AfterOpeningLeavesRun(opening: Opening, q: Id, actor: string, now: Time, r: Id)
    requires BooksOk(opening.store.work) && NonBlank(actor) && q != r && r in opening.store.work.runs
    ensures var st' := AfterOpening(opening, q, actor, now).store;
            r in st'.work.runs && st'.work.runs[r] == opening.store.work.runs[r]
  {
    hide BooksOk, FailBlocked, NonBlank;
    match opening.failure
    case None =>
    case Some(message) => FailBlockedLeavesRun(opening.store, q, actor, message, now, r);
  }

  lemma FailBlockedLeavesRun(st: Store, q: Id, actor: string, message: string, now: Time, r: Id)
    requires BooksOk(st.work) && NonBlank(actor) && q != r && r in st.work.runs
    ensures var st' := FailBlocked(st, q, actor, message, now).store;
            r in st'.work.runs && st'.work.runs[r] == st.work.runs[r]
  {
    hide BooksOk, MoveRun, NonBlank;
    OtherMoveLeavesRun(st.work, GivingUp(q, actor, message), now, r);
  }

  lemma CancelRunLeavesRun(st: Store, q: Id, actor: string, reason: string, summary: Option<string>, now: Time, r: Id)
    requires BooksOk(st.work) && NonBlank(actor)
    ensures RunSurvives(st, CancelWorkRun(st, q, actor, reason, summary, now).store, r)
  {
    hide BooksOk, MoveRun, Cleanup;
    var input := MoveInput(q, actor, Canceled, summary, Some(reason), None);
    if r in st.work.runs && q in st.work.runs && st.work.runs[q].status !in {Done, Failed, Canceled} {
      MoveRunChangesOne(st.work, input, now);
      CleanupKeepsTables(st.(work := MoveRun(st.work, input, now).work), {q}, reason, now);
    }
    CleanupKeepsTables(st, {q}, reason, now);
  }

  lemma CleanupKeepsTables(st: Store, ids: set<Id>, reason: string, now: Time)
    ensures Cleanup(st, ids, reason, now).work == st.work
    ensures Cleanup(st, ids, reason, now).leases.Keys == st.leases.Keys
  {
  }

  lemma CancelTaskLeavesRun(st: Store, t: Id, actor: string, reason: Option<string>, now: Time, r: Id)
    requires BooksOk(st.work)
    ensures RunSurvives(st, CancelWorkTask(st, t, actor, reason, now).store, r)
  {
    hide BooksOk, CancelTask, Cleanup;
    if t in st.work.tasks {
      if CancelTask(st.work, t, actor, reason, now).result.Ok? {
        CancelTaskRuns(st.work, t, actor, reason, now);
        CleanupKeepsTables(st.(work := CancelTask(st.work, t, actor, reason, now).work), CleanupIds(st.work, t),
                           if reason.None? || reason.value == "" then "WorkTask canceled." else reason.value, now);
      } else {
        FailedCancelChangesNothing(st.work, t, actor, reason, now);
      }
    }
  }

  lemma NewRunLeavesRuns(st: Store, w: Tables, q: Id, r: Id)
    requires GainsARun(st.work, w, q) && q !in st.work.runs
    ensures RunSurvives(st, st.(work := w), r)
  {
  }

  lemma ReviseLeavesRun(st: Store, input: ReviseInput, now: Time, r: Id)
    ensures RunSurvives(st, st.(work := ReviseTask(st.work, input, now).work), r)
  {
    hide ReviseTask;
    if ReviseTask(st.work, input, now).result.Ok? {
      ReviseTaskEffect(st.work, input, now);
    } else {
      FailedRevisionChangesNothing(st.work, input, now);
    }
  }

  lemma NewRunStepsLeaveRun(st: Store, op: Op, s: Setting, r: Id)
    requires BooksOk(st.work) && (op.CreateWorkOp? || op.CreateDueRunOp? || op.RetryRunOp?)
    ensures RunSurvives(st, Step(st, op, s), r)
  {
    hide BooksOk, CreateWork, CreateDueRun, RetryRun, GainsARun, RunSurvives;
    RunsAreFresh(st.work);
    match op
    case CreateWorkOp(input) =>
      CreateWorkRuns(st.work, input, s.directory, s.now);
      NewRunLeavesRuns(st, CreateWork(st.work, input, s.directory, s.now).work, st.work.next + 1, r);
    case CreateDueRunOp(schedule, actor) =>
      CreateDueRunRuns(st.work, schedule, actor, s.directory, s.now);
      NewRunLeavesRuns(st, CreateDueRun(st.work, schedule, actor, s.directory, s.now).work, st.work.next, r);
    case RetryRunOp(q, actor, assignee) =>
      RetryRunRuns(st.work, q, actor, assignee, s.directory, s.now);
      NewRunLeavesRuns(st, RetryRun(st.work, q, actor, assignee, s.directory, s.now).work, st.work.next, r);
  }

  lemma ExecutorStepsLeaveRun(st: Store, op: Op, s: Setting, r: Id, except: set<Id>)
    requires InvExcept(st, except) && MayInterfere(st, op, r) && (op.MoveRunOp? || op.BlockRunOp?)
    ensures RunSurvives(st, Step(st, op, s), r)
  {
    hide InvExcept, MoveRun, BlockRun, CreateWork, CreateDueRun, RetryRun, ReviseTask, MoveSchedule, CancelWorkTask,
         CancelWorkRun;
    hide ArchiveTask, RestoreTask, Dispatch, RetryDispatch, ExpireLeases, RecordEvent, SettleRequest, BooksOk, NonBlank;
    BooksOfCompany(st, except);
    if r in st.work.runs {
      match op
      case MoveRunOp(input) => OtherMoveLeavesRun(st.work, input, s.now, r);
      case BlockRunOp(q, actor, summary, reason, channel) =>
        OtherBlockLeavesRun(st, q, actor, summary, reason, channel, s.now, r, except);
    }
  }

  lemma StepLeavesRun(st: Store, op: Op, s: Setting, r: Id, except: set<Id>)
    requires InvExcept(st, except) && MayInterfere(st, op, r)
    ensures RunSurvives(st, Step(st, op, s), r)
  {
    hide InvExcept, RunSurvives, CreateWork, CreateDueRun, RetryRun, ReviseTask, MoveSchedule, CancelWorkTask,
         CancelWorkRun;
    hide ArchiveTask, RestoreTask, Dispatch, RetryDispatch, ExpireLeases, MoveRun, BlockRun, RecordEvent, SettleRequest;
    BooksOfCompany(st, except);
    match op
    case CreateWorkOp(_) => NewRunStepsLeaveRun(st, op, s, r);
    case CreateDueRunOp(_, _) => NewRunStepsLeaveRun(st, op, s, r);
    case RetryRunOp(_, _, _) => NewRunStepsLeaveRun(st, op, s, r);
    case ReviseTaskOp(input) => ReviseLeavesRun(st, input, s.now, r);
    case CancelTaskOp(t, actor, reason) => CancelTaskLeavesRun(st, t, actor, reason, s.now, r);
    case CancelRunOp(q, actor, reason, summary) => CancelRunLeavesRun(st, q, actor, reason, summary, s.now, r);
    case MoveRunOp(_) => ExecutorStepsLeaveRun(st, op, s, r, except);
    case BlockRunOp(_, _, _, _, _) => ExecutorStepsLeaveRun(st, op, s, r, except);
    case DispatchOp(createdBy) =>
      DispatchLeavesStarted(st, createdBy, s, r, except);
      LeftAloneSurvives(st, Dispatch(st, createdBy, s).store, r);
    case _ =>
      LeaseStepsLeaveRuns(st, op, s);
      SameRunsSurvive(st, Step(st, op, s), r);
  }

  /** Only a queued run is ever dispatched. */
  lemma DispatchLeavesStarted(st: Store, createdBy: string, s: Setting, r: Id, except: set<Id>)
    requires InvExcept(st, except) && Started(st, r)
    ensures LeftAlone(st, Dispatch(st, createdBy, s).store, r)
  {
    hide InvExcept, Dispatch, LeftAlone, Idle, IsExplicitRetry, LatestIs;
    DispatchTouchesOne(st, createdBy, s, r, except);
  }

  lemma LeftAloneSurvives(st: Store, st': Store, r: Id)
    requires LeftAlone(st, st', r)
    ensures RunSurvives(st, st', r)
  {
    hide Latest;
  }

  lemma LeftAloneKeepsLease(st: Store, st': Store, r: Id)
    requires LeftAlone(st, st', r) && NoLeaseWaits(st, r)
    ensures NoLeaseWaits(st', r)
  {
    hide Latest;
  }

  lemma SameRunsSurvive(st: Store, st': Store, r: Id)
    requires st'.work.runs == st.work.runs
    ensures RunSurvives(st, st', r)
  {
  }

  lemma LeaseStepsLeaveRuns(st: Store, op: Op, s: Setting)
    requires op.RetryDispatchOp? || op.ExpireLeasesOp? || op.SettleRequestOp? || op.MoveScheduleOp? || op.ArchiveTaskOp?
             || op.RestoreTaskOp? || op.RemarkOp?
    ensures Step(st, op, s).work.runs == st.work.runs
  {
    hide CreateWork, CreateDueRun, RetryRun, ReviseTask, CancelWorkTask, CancelWorkRun, Dispatch, MoveRun, BlockRun;
  }

  // ---------------------------------------------------------------- leases of the run

  /** Nobody but the dispatcher gives a new lease to a run whose latest lease has not failed. */
  lemma StepAddsNoLease(st: Store, op: Op, s: Setting, r: Id, except: set<Id>)
    requires InvExcept(st, except) && MayInterfere(st, op, r) && NoLeaseWaits(st, r)
    ensures NoLeaseWaits(Step(st, op, s), r)
  {
    if op.DispatchOp? {
      hide InvExcept, NoLeaseWaits, Dispatch, LeftAlone;
      DispatchLeavesStarted(st, op.createdBy, s, r, except);
      LeftAloneKeepsLease(st, Dispatch(st, op.createdBy, s).store, r);
      DispatchIsAStep(st, op.createdBy, s);
    } else {
      OtherStepAddsNoLease(st, op, s, r, except);
    }
  }

  lemma DispatchIsAStep(st: Store, createdBy: string, s: Setting)
    ensures Step(st, DispatchOp(createdBy), s) == Dispatch(st, createdBy, s).store
  {
    hide Dispatch;
  }

  lemma OtherStepAddsNoLease(st: Store, op: Op, s: Setting, r: Id, except: set<Id>)
    requires InvExcept(st, except) && MayInterfere(st, op, r) && NoLeaseWaits(st, r) && !op.DispatchOp?
    ensures NoLeaseWaits(Step(st, op, s), r)
  {
    hide InvExcept, Step, LatestIs, Proper, NewLeasesRetry;
    LeaseIdIsFresh(st, except);
    StepGoesOn(st, op, s, except);
    StepKeepsCompany(st, op, s, except);
    var st' := Step(st, op, s);
    LeaseIdIsFresh(st', except);
    NewLeasesAnswerFailures(st, op, s);
    GoingOnLeases(st, st');
    OldLatestStays(st, st', r);
  }

  lemma GoingOnLeases(st: Store, st': Store)
    requires CompanyGoesOn(st, st')
    ensures LeasesGoOn(st.leases, st'.leases) && st.work.next <= st'.work.next
  {
  }

  /** Every lease of st' was there before, or answers a failed latest lease. */
  ghost predicate NewLeasesRetry(st: Store, st': Store) {
    forall l :: l in st'.leases && l !in st.leases ==> LatestIs(st, st'.leases[l].run, {LeaseFailed})
  }

  lemma SameLeaseIdsRetry(st: Store, st': Store)
    requires st'.leases.Keys == st.leases.Keys
    ensures NewLeasesRetry(st, st')
  {
  }

  lemma NewLeasesAnswerFailures(st: Store, op: Op, s: Setting)
    requires !op.DispatchOp?
    ensures NewLeasesRetry(st, Step(st, op, s))
  {
    hide CreateWork, CreateDueRun, RetryRun, ReviseTask, MoveSchedule, ArchiveTask, RestoreTask, Dispatch, MoveRun,
         RecordEvent;
    hide CancelWorkTask, CancelWorkRun, BlockRun, NewLeasesRetry, LatestIs;
    match op
    case RetryDispatchOp(r, actor) => RetryDispatchRetries(st, r, actor, s);
    case CancelTaskOp(t, actor, reason) =>
      CancelTaskKeepsLeaseIds(st, t, actor, reason, s.now);
      SameLeaseIdsRetry(st, Step(st, op, s));
    case CancelRunOp(q, actor, reason, summary) =>
      CancelRunKeepsLeaseIds(st, q, actor, reason, summary, s.now);
      SameLeaseIdsRetry(st, Step(st, op, s));
    case BlockRunOp(q, actor, summary, reason, channel) =>
      BlockRunKeepsLeaseIds(st, q, actor, summary, reason, channel, s.now);
      SameLeaseIdsRetry(st, Step(st, op, s));
    case _ => SameLeaseIdsRetry(st, Step(st, op, s));
  }

  lemma RetryDispatchRetries(st: Store, r: Id, actor: string, s: Setting)
    ensures NewLeasesRetry(st, RetryDispatch(st, r, actor, s).store)
  {
    hide Latest;
  }

  lemma CancelTaskKeepsLeaseIds(st: Store, t: Id, actor: string, reason: Option<string>, now: Time)
    ensures CancelWorkTask(st, t, actor, reason, now).store.leases.Keys == st.leases.Keys
  {
    hide CancelTask, Cleanup;
    CleanupKeepsTables(st.(work := CancelTask(st.work, t, actor, reason, now).work), CleanupIds(st.work, t),
                       if reason.None? || reason.value == "" then "WorkTask canceled." else reason.value, now);
  }

  lemma CancelRunKeepsLeaseIds(st: Store, q: Id, actor: string, reason: string, summary: Option<string>, now: Time)
    ensures CancelWorkRun(st, q, actor, reason, summary, now).store.leases.Keys == st.leases.Keys
  {
    hide MoveRun, Cleanup;
    CleanupKeepsTables(st, {q}, reason, now);
    CleanupKeepsTables(st.(work := MoveRun(st.work, MoveInput(q, actor, Canceled, summary, Some(reason), None),
                                           now).work), {q}, reason, now);
  }

  lemma BlockRunKeepsLeaseIds(st: Store, q: Id, actor: string, summary: Option<string>, reason: Option<string>,
                              channel: Channel, now: Time)
    ensures BlockRun(st, q, actor, summary, reason, channel, now).store.leases.Keys == st.leases.Keys
  {
    hide MoveRun, OpenRecovery, FailBlocked, RequestsGoOn;
    var opening := OpenRecovery(st.(work := MoveRun(st.work, MoveInput(q, actor, Blocked, summary, reason, None),
                                                    now).work), q, channel, now);
    OpenRecoveryShape(st.(work := MoveRun(st.work, MoveInput(q, actor, Blocked, summary, reason, None), now).work), q,
                      channel, now);
    if opening.failure.Some? { FailBlockedKeepsLeases(opening.store, q, actor, opening.failure.value, now); }
  }

  lemma FailBlockedKeepsLeases(st: Store, q: Id, actor: string, message: string, now: Time)
    ensures FailBlocked(st, q, actor, message, now).store.leases == st.leases
  {
    hide MoveRun;
  }

  lemma OldLatestStays(st: Store, st': Store, r: Id)
    requires LeasesGoOn(st.leases, st'.leases) && NoLeaseWaits(st, r)
    requires (forall l :: l in st.leases ==> l < st.work.next) && (forall l :: l in st'.leases ==> l < st'.work.next)
    requires NewLeasesRetry(st, st')
    ensures NoLeaseWaits(st', r)
  {
    LatestMeans(st, r);
    LatestMeans(st', r);
    if Latest(st', r).Some? {
      var l := Latest(st', r).value;
      assert l in st.leases;
      assert IsLatest(st.leases, l) by {
        forall k | k in st.leases && st.leases[k].run == r ensures k <= l { assert st'.leases[k].run == r; }
      }
      LatestFound(st, l);
    }
  }

  /** With no lease waiting, none of the run's leases is pending. */
  lemma NoLeaseWaitsMeansNoPending(st: Store, r: Id, except: set<Id>)
    requires InvExcept(st, except) && NoLeaseWaits(st, r)
    ensures HasNoPending(st.leases, r)
  {
    hide BooksOk;
    forall l | l in st.leases && st.leases[l].run == r ensures st.leases[l].status != Pending {
      assert LeaseFits(st, l);
      if st.leases[l].status == Pending { LatestFound(st, l); }
    }
  }

  // ---------------------------------------------------------------- everything at once

  /** Whatever others do while the executor waits, the promises are kept, nothing is taken back, and the
      run it works on is at most canceled. */
  lemma {:induction false} InterferenceOnlyCancels(st: Store, r: Id, turns: seq<Turn>, except: set<Id>)
    requires InvExcept(st, except)
    ensures var st' := Interfered(st, r, turns);
            && InvExcept(st', except) && CompanyGoesOn(st, st') && RunSurvives(st, st', r)
            && (NoLeaseWaits(st, r) ==> NoLeaseWaits(st', r))
    decreases |turns|
  {
    hide InvExcept, CompanyGoesOn, Step, MayInterfere, NoLeaseWaits;
    if turns == [] {
      NothingGoesOn(st);
    } else if MayInterfere(st, turns[0].op, r) {
      var st1 := Step(st, turns[0].op, turns[0].setting);
      InterferingIsProper(st, turns[0].op, r);
      StepKeepsCompany(st, turns[0].op, turns[0].setting, except);
      StepGoesOn(st, turns[0].op, turns[0].setting, except);
      StepLeavesRun(st, turns[0].op, turns[0].setting, r, except);
      if NoLeaseWaits(st, r) { StepAddsNoLease(st, turns[0].op, turns[0].setting, r, except); }
      InterferenceOnlyCancels(st1, r, turns[1..], except);
      CompanyGoesOnTransitive(st, st1, Interfered(st, r, turns));
    } else {
      InterferenceOnlyCancels(st, r, turns[1..], except);
    }
  }

  lemma InterferingIsProper(st: Store, op: Op, r: Id)
    requires MayInterfere(st, op, r)
    ensures Proper(st, op)
  {
  }
}
