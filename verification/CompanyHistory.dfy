/** What no run of the system takes back. */
module CompanyHistory {
  import opened Prelude
  import opened WorkDomain
  import opened WorkOperations
  import opened WorkInvariants
  import opened WorkHistory
  import opened Company
  import opened CompanyInvariants
  import opened CompanyKept

  predicate SameRequest(a: Request, b: Request) {
    && a.id == b.id && a.task == b.task && a.assignee == b.assignee && a.requester == b.requester
    && a.conversation == b.conversation && a.createdAt == b.createdAt
  }

  ghost predicate RequestsGoOn(a: map<Id, Request>, b: map<Id, Request>) {
    forall r :: r in a ==> r in b && SameRequest(a[r], b[r])
  }

  ghost predicate CompanyGoesOn(a: Store, b: Store) {
    GoesOn(a.work, b.work) && LeasesGoOn(a.leases, b.leases) && RequestsGoOn(a.requests, b.requests)
  }

  lemma CompanyGoesOnTransitive(a: Store, b: Store, c: Store)
    requires CompanyGoesOn(a, b) && CompanyGoesOn(b, c)
    ensures CompanyGoesOn(a, c)
  {
    hide GoesOn;
    GoesOnTransitive(a.work, b.work, c.work);
  }

  lemma OnlyWorkGoesOn(st: Store, w: Tables)
    requires GoesOn(st.work, w)
    ensures CompanyGoesOn(st, st.(work := w))
  {
    hide GoesOn;
  }

  lemma WorkStepGoesOn(st: Store, op: Op, s: Setting)
    requires BooksOk(st.work) && Proper(st, op)
    ensures match op
            case CreateWorkOp(input) => GoesOn(st.work, CreateWork(st.work, input, s.directory, s.now).work)
            case CreateDueRunOp(schedule, actor) =>
              GoesOn(st.work, CreateDueRun(st.work, schedule, actor, s.directory, s.now).work)
            case RetryRunOp(r, actor, assignee) =>
              GoesOn(st.work, RetryRun(st.work, r, actor, assignee, s.directory, s.now).work)
            case ReviseTaskOp(input) => GoesOn(st.work, ReviseTask(st.work, input, s.now).work)
            case MoveScheduleOp(schedule, move, reason) =>
              GoesOn(st.work, MoveSchedule(st.work, schedule, move, reason, s.now).work)
            case ArchiveTaskOp(t, actor, reason) => GoesOn(st.work, ArchiveTask(st.work, t, actor, reason, s.now).work)
            case RestoreTaskOp(t, actor) => GoesOn(st.work, RestoreTask(st.work, t, actor, s.now).work)
            case MoveRunOp(input) => GoesOn(st.work, MoveRun(st.work, input, s.now).work)
            case RemarkOp(r, actor, remark, text) =>
              GoesOn(st.work, RecordEvent(st.work, r, actor, RemarkName(remark), text, s.now).work)
            case _ => true
  {
    hide BooksOk, GoesOn, CreateWork, CreateDueRun, RetryRun, ReviseTask, MoveSchedule, ArchiveTask, RestoreTask,
         MoveRun, RecordEvent;
    match op
    case CreateWorkOp(input) => CreateWorkGoesOn(st.work, input, s.directory, s.now);
    case CreateDueRunOp(schedule, actor) => CreateDueRunGoesOn(st.work, schedule, actor, s.directory, s.now);
    case RetryRunOp(r, actor, assignee) => RetryRunGoesOn(st.work, r, actor, assignee, s.directory, s.now);
    case ReviseTaskOp(input) => ReviseTaskGoesOn(st.work, input, s.now);
    case MoveScheduleOp(schedule, move, reason) => MoveScheduleGoesOn(st.work, schedule, move, reason, s.now);
    case ArchiveTaskOp(t, actor, reason) => ArchiveAndRestoreGoOn(st.work, t, actor, reason, s.now);
    case RestoreTaskOp(t, actor) => ArchiveAndRestoreGoOn(st.work, t, actor, None, s.now);
    case MoveRunOp(input) => MoveRunGoesOn(st.work, input, s.now);
    case RemarkOp(r, actor, remark, text) => RecordEventGoesOn(st.work, r, actor, RemarkName(remark), text, s.now);
    case _ =>
  }

  // ---------------------------------------------------------------- operations on leases and requests

  lemma HandedOutIdsGoOn(w: Tables, n: Id)
    requires w.next <= n
    ensures GoesOn(w, w.(next := n))
  {
    hide LifeStatus;
    forall t | IsOver(w, t) ensures StaysOver(w, w.(next := n), t) {
      assert IsOneShotTask(w.(next := n), t);
    }
  }

  lemma CleanupGoesOn(st: Store, ids: set<Id>, reason: string, now: Time)
    ensures CompanyGoesOn(st, Cleanup(st, ids, reason, now))
  {
    hide GoesOn, CancelLeases, LeasesGoOn;
    CancelingGoesOn(st, ids, reason, now);
    GoesOnReflexive(st.work);
  }

  lemma CancelTaskStepGoesOn(st: Store, t: Id, actor: string, reason: Option<string>, now: Time)
    requires BooksOk(st.work)
    ensures CompanyGoesOn(st, CancelWorkTask(st, t, actor, reason, now).store)
  {
    hide BooksOk, GoesOn, CompanyGoesOn, CancelTask, Cleanup, CleanupIds;
    CancelTaskGoesOn(st.work, t, actor, reason, now);
    var mid := st.(work := CancelTask(st.work, t, actor, reason, now).work);
    OnlyWorkGoesOn(st, mid.work);
    var why := if reason.None? || reason.value == "" then "WorkTask canceled." else reason.value;
    CleanupGoesOn(mid, CleanupIds(st.work, t), why, now);
    CompanyGoesOnTransitive(st, mid, Cleanup(mid, CleanupIds(st.work, t), why, now));
    NothingGoesOn(st);
  }

  lemma NothingGoesOn(st: Store)
    ensures CompanyGoesOn(st, st)
  {
    hide GoesOn;
    GoesOnReflexive(st.work);
  }

  lemma CancelRunStepGoesOn(st: Store, r: Id, actor: string, reason: string, summary: Option<string>, now: Time)
    requires BooksOk(st.work) && NonBlank(actor)
    ensures CompanyGoesOn(st, CancelWorkRun(st, r, actor, reason, summary, now).store)
  {
    hide BooksOk, GoesOn, CompanyGoesOn, MoveRun, Cleanup;
    var input := MoveInput(r, actor, Canceled, summary, Some(reason), None);
    MoveRunGoesOn(st.work, input, now);
    var mid := st.(work := MoveRun(st.work, input, now).work);
    OnlyWorkGoesOn(st, mid.work);
    CleanupGoesOn(mid, {r}, reason, now);
    CompanyGoesOnTransitive(st, mid, Cleanup(mid, {r}, reason, now));
    CleanupGoesOn(st, {r}, reason, now);
    NothingGoesOn(st);
  }

  lemma LeaseStepsAreCompanySteps(st: Store, r: Id, assignee: string, reason: string, now: Time)
    ensures CompanyGoesOn(st, AcknowledgeLease(st, r, assignee, now))
    ensures CompanyGoesOn(st, FailPendingLease(st, r, reason, now))
    ensures CompanyGoesOn(st, ExpireLeases(st, now))
  {
    hide GoesOn, LeasesGoOn;
    AcknowledgingGoesOn(st, r, assignee, now);
    FailingGoesOn(st, r, reason, now);
    ExpiringGoesOn(st, now);
    GoesOnReflexive(st.work);
  }

  lemma AddLeaseGoesOn(st: Store, lease: Lease)
    requires st.work.next !in st.leases
    ensures CompanyGoesOn(st, AddLease(st, lease))
  {
    hide GoesOn;
    HandedOutIdsGoOn(st.work, st.work.next + 1);
  }

  lemma RetryDispatchGoesOn(st: Store, r: Id, actor: string, s: Setting)
    requires st.work.next !in st.leases
    ensures CompanyGoesOn(st, RetryDispatch(st, r, actor, s).store)
  {
    hide CompanyGoesOn, AddLease;
    NothingGoesOn(st);
    if RetryDispatch(st, r, actor, s).result.Ok? {
      var l := Latest(st, r);
      AddLeaseGoesOn(st, PendingLease(r, st.leases[l.value].assignee, actor, l, FromRunAction, s));
    }
  }

  lemma LeaseForGoesOn(st: Store, r: Id, createdBy: string, s: Setting)
    requires st.work.next !in st.leases && r in st.work.runs
    ensures CompanyGoesOn(st, LeaseFor(st, r, createdBy, s))
  {
    hide CompanyGoesOn, AddLease;
    NothingGoesOn(st);
    AddLeaseGoesOn(st, PendingLease(r, st.work.runs[r].assignee, createdBy, None, FromDispatcher, s));
  }

  lemma DispatchGoesOn(st: Store, createdBy: string, s: Setting, except: set<Id>)
    requires InvExcept(st, except)
    ensures CompanyGoesOn(st, Dispatch(st, createdBy, s).store)
  {
    hide InvExcept, CompanyGoesOn, GoesOn, LeaseFor, NextCandidate, AcknowledgeLease, FailPendingLease, MoveRun,
         LeasesGoOn;
    match NextCandidate(st)
    case None => NothingGoesOn(st);
    case Some(r) =>
      var assignee := st.work.runs[r].assignee;
      var leased := LeaseFor(st, r, createdBy, s);
      LeaseIdIsFresh(st, except);
      LeaseForGoesOn(st, r, createdBy, s);
      LeaseForKeepsCompany(st, r, createdBy, s, except);
      LeaseStepsAreCompanySteps(leased, r, assignee, UNRESOLVED, s.now);
      if assignee !in s.homes {
        CompanyGoesOnTransitive(st, leased, FailPendingLease(leased, r, UNRESOLVED, s.now));
      } else {
        var taken := AcknowledgeLease(leased, r, assignee, s.now);
        TakenLeaseLeavesNone(leased, r, s.now, except);
        CompanyGoesOnTransitive(st, leased, taken);
        BooksOfCompany(leased, except);
        AssigneeIsNamed(leased.work, r);
        MoveRunGoesOn(leased.work, StartInput(r, assignee), s.now);
        OnlyWorkGoesOn(taken, MoveRun(leased.work, StartInput(r, assignee), s.now).work);
        CompanyGoesOnTransitive(st, taken, taken.(work := MoveRun(taken.work, StartInput(r, assignee), s.now).work));
      }
  }

  lemma OpenRecoveryGoesOn(st: Store, r: Id, channel: Channel, now: Time)
    ensures CompanyGoesOn(st, OpenRecovery(st, r, channel, now).store)
  {
    hide GoesOn, OpenRecovery;
    OpenRecoveryShape(st, r, channel, now);
    HandedOutIdsGoOn(st.work, OpenRecovery(st, r, channel, now).store.work.next);
  }

  lemma OpenRecoveryShape(st: Store, r: Id, channel: Channel, now: Time)
    ensures var st' := OpenRecovery(st, r, channel, now).store;
            && st.work.next <= st'.work.next && st'.work == st.work.(next := st'.work.next) && st'.leases == st.leases
            && RequestsGoOn(st.requests, st'.requests)
  {
    hide RequestsGoOn;
    OpenRecoveryPutsOne(st, r, channel, now);
    RequestPutGoesOn(st.requests, OpenRecovery(st, r, channel, now).store.requests, r);
  }

  lemma OpenRecoveryPutsOne(st: Store, r: Id, channel: Channel, now: Time)
    ensures var after := OpenRecovery(st, r, channel, now).store.requests;
            after == st.requests
            || (r in after && after == st.requests[r := after[r]]
                && (r in st.requests ==> SameRequest(st.requests[r], after[r])))
  {
    hide NewRequest, OrElse;
  }

  lemma RequestPutGoesOn(a: map<Id, Request>, b: map<Id, Request>, r: Id)
    requires a == b || (r in b && b == a[r := b[r]] && (r in a ==> SameRequest(a[r], b[r])))
    ensures RequestsGoOn(a, b)
  {
  }

  lemma BlockRunGoesOn(st: Store, r: Id, actor: string, summary: Option<string>, reason: Option<string>,
                       channel: Channel, now: Time, except: set<Id>)
    requires InvExcept(st, except) && NonBlank(actor) && Started(st, r)
    ensures CompanyGoesOn(st, BlockRun(st, r, actor, summary, reason, channel, now).store)
  {
    hide InvExcept, CompanyGoesOn, GoesOn, MoveRun, OpenRecovery, FailBlocked, BooksOk, NonBlank;
    var input := MoveInput(r, actor, Blocked, summary, reason, None);
    BooksOfCompany(st, except);
    MoveRunGoesOn(st.work, input, now);
    var blocked := st.(work := MoveRun(st.work, input, now).work);
    OnlyWorkGoesOn(st, blocked.work);
    if MoveRun(st.work, input, now).result.Ok? {
      var opening := OpenRecovery(blocked, r, channel, now);
      OpenRecoveryGoesOn(blocked, r, channel, now);
      CompanyGoesOnTransitive(st, blocked, opening.store);
      match opening.failure
      case None =>
      case Some(message) =>
        BlockedBooks(st, input, channel, Setting({}, {}, now, 0), except);
        FailBlockedGoesOn(opening.store, r, actor, message, now);
        CompanyGoesOnTransitive(st, opening.store, FailBlocked(opening.store, r, actor, message, now).store);
    }
  }

  lemma FailBlockedGoesOn(st: Store, r: Id, actor: string, message: string, now: Time)
    requires BooksOk(st.work) && NonBlank(actor)
    ensures CompanyGoesOn(st, FailBlocked(st, r, actor, message, now).store)
  {
    hide BooksOk, CompanyGoesOn, GoesOn, MoveRun, NonBlank;
    var failing := GivingUp(r, actor, message);
    MoveRunGoesOn(st.work, failing, now);
    OnlyWorkGoesOn(st, MoveRun(st.work, failing, now).work);
  }

  lemma BlockedBooks(st: Store, input: MoveInput, channel: Channel, s: Setting, except: set<Id>)
    requires InvExcept(st, except) && NonBlank(input.actor) && Started(st, input.run)
    ensures BooksOk(OpenRecovery(st.(work := MoveRun(st.work, input, s.now).work), input.run, channel,
                                 s.now).store.work)
  {
    hide InvExcept, MoveRun, OpenRecovery;
    var blocked := st.(work := MoveRun(st.work, input, s.now).work);
    MoreExceptions(st, except, {input.run});
    MoveRunKeepsCompany(st, input, s, except + {input.run});
    OpenRecoveryKeepsCompany(blocked, input.run, channel, s.now, except);
    BooksOfCompany(OpenRecovery(blocked, input.run, channel, s.now).store, except + {input.run});
  }

  lemma SettleRequestGoesOn(st: Store, r: Id, now: Time)
    ensures CompanyGoesOn(st, SettleRequest(st, r, now))
  {
    hide GoesOn;
    GoesOnReflexive(st.work);
  }

  // ---------------------------------------------------------------- every operation, every run

  lemma StepGoesOn(st: Store, op: Op, s: Setting, except: set<Id>)
    requires InvExcept(st, except) && Proper(st, op)
    ensures CompanyGoesOn(st, Step(st, op, s))
  {
    hide InvExcept, CompanyGoesOn, GoesOn, CreateWork, CreateDueRun, RetryRun, ReviseTask, MoveSchedule, CancelWorkTask;
    hide CancelWorkRun, ArchiveTask, RestoreTask, Dispatch, RetryDispatch, ExpireLeases, MoveRun, BlockRun, RecordEvent,
         SettleRequest;
    BooksOfCompany(st, except);
    LeaseIdIsFresh(st, except);
    match op
    case CancelTaskOp(t, actor, reason) => CancelTaskStepGoesOn(st, t, actor, reason, s.now);
    case CancelRunOp(r, actor, reason, summary) => CancelRunStepGoesOn(st, r, actor, reason, summary, s.now);
    case DispatchOp(createdBy) => DispatchGoesOn(st, createdBy, s, except);
    case RetryDispatchOp(r, actor) => RetryDispatchGoesOn(st, r, actor, s);
    case ExpireLeasesOp => LeaseStepsAreCompanySteps(st, 0, "", "", s.now);
    case BlockRunOp(r, actor, summary, reason, channel) =>
      BlockRunGoesOn(st, r, actor, summary, reason, channel, s.now, except);
    case SettleRequestOp(r) => SettleRequestGoesOn(st, r, s.now);
    case _ =>
      WorkStepGoesOn(st, op, s);
      OnlyWorkGoesOn(st, Step(st, op, s).work);
  }

  /** Over every run of the system: ended runs stay as they ended, no record changes its identity, task
      revisions never go back, lease statuses only move forward, and a one-shot task that is over never
      becomes active again and never gains a run. */
  lemma {:induction false} EveryRunGoesOn(st: Store, turns: seq<Turn>)
    requires Inv(st) && AllProper(st, turns)
    ensures CompanyGoesOn(st, After(st, turns))
    decreases |turns|
  {
    hide InvExcept, CompanyGoesOn, Step;
    if turns == [] {
      NothingGoesOn(st);
    } else {
      var next := Step(st, turns[0].op, turns[0].setting);
      StepGoesOn(st, turns[0].op, turns[0].setting, {});
      StepKeepsCompany(st, turns[0].op, turns[0].setting, {});
      EveryRunGoesOn(next, turns[1..]);
      CompanyGoesOnTransitive(st, next, After(st, turns));
    }
  }
}
