/** Every operation of the system keeps the promises about leases, requests and blocked runs. */
module CompanyKept {
  import opened Prelude
  import opened WorkDomain
  import opened WorkOperations
  import opened RunLog
  import opened WorkInvariants
  import opened RecordsKept
  import opened SchedulesKept
  import opened OneShotsKept
  import opened BooksKept
  import opened Company
  import opened CompanyInvariants

  // ---------------------------------------------------------------- what an operation does to runs

  predicate HasNoPending(leases: map<Id, Lease>, r: Id) {
    forall l :: l in leases && leases[l].run == r ==> leases[l].status != Pending
  }

  /** Runs stay, with their places; a run that has a pending lease stays queued; no run becomes blocked
      outside the given set. */
  ghost predicate RunsAreSafe(st: Store, w: Tables, blocking: set<Id>) {
    && st.work.next <= w.next
    && (forall r :: r in st.work.runs ==>
                      && r in w.runs && w.runs[r].task == st.work.runs[r].task
                      && w.runs[r].assignee == st.work.runs[r].assignee
                      && (w.runs[r].status == st.work.runs[r].status || st.work.runs[r].status != Queued
                          || HasNoPending(st.leases, r)))
    && (forall r :: r in w.runs && w.runs[r].status == Blocked && r !in blocking ==>
          r in st.work.runs && st.work.runs[r].status == Blocked)
  }

  lemma SafeRunsKeepCompany(st: Store, w: Tables, except: set<Id>)
    requires InvExcept(st, except) && BooksOk(w) && RunsAreSafe(st, w, except)
    ensures InvExcept(st.(work := w), except)
  {
    hide BooksOk;
    var st' := st.(work := w);
    assert LeasesOk(st') by {
      forall l | l in st'.leases ensures LeaseFits(st', l) {
        assert LeaseFits(st, l);
      }
    }
    assert RequestsOk(st') by {
      forall r | r in st'.requests ensures RequestFits(st', r) {
        assert RequestFits(st, r);
      }
    }
  }

  lemma SameRunsAreSafe(st: Store, w: Tables, except: set<Id>)
    requires st.work.next <= w.next && w.runs == st.work.runs
    ensures RunsAreSafe(st, w, except)
  {
  }

  /** Nothing happens to the runs, except that a queued one may join. */
  predicate GainsARun(w: Tables, w': Tables, r: Id) {
    && w.next <= w'.next
    && (w'.runs == w.runs || (r in w'.runs && w'.runs == w.runs[r := w'.runs[r]] && w'.runs[r].status == Queued))
  }

  lemma GainedRunIsSafe(st: Store, w: Tables, r: Id, except: set<Id>)
    requires GainsARun(st.work, w, r) && r !in st.work.runs
    ensures RunsAreSafe(st, w, except)
  {
  }

  lemma RunsAreFresh(w: Tables)
    requires BooksOk(w)
    ensures forall r :: r in w.runs ==> r < w.next
  {
    hide *;
    BooksHaveGroups(w);
    RunsAreOld(w);
  }

  // ---------------------------------------------------------------- operations of WorkService that end no run

  lemma CreateWorkKeepsCompany(st: Store, input: CreateInput, s: Setting, except: set<Id>)
    requires InvExcept(st, except)
    ensures InvExcept(st.(work := CreateWork(st.work, input, s.directory, s.now).work), except)
  {
    hide BooksOk, LeasesOk, RequestsOk, BlockedReachable, RunsAreSafe, CreateWork, GainsARun;
    var after := CreateWork(st.work, input, s.directory, s.now);
    CreateWorkKeepsBooks(st.work, input, s.directory, s.now);
    RunsAreFresh(st.work);
    CreateWorkRuns(st.work, input, s.directory, s.now);
    GainedRunIsSafe(st, after.work, st.work.next + 1, except);
    SafeRunsKeepCompany(st, after.work, except);
  }

  lemma CreateWorkRuns(w: Tables, input: CreateInput, directory: set<string>, now: Time)
    ensures GainsARun(w, CreateWork(w, input, directory, now).work, w.next + 1)
  {
    hide ScheduleOf, NewTask, TriggerError, Normalized;
  }

  lemma CreateDueRunKeepsCompany(st: Store, schedule: Id, actor: string, s: Setting, except: set<Id>)
    requires InvExcept(st, except) && NonBlank(actor)
    ensures InvExcept(st.(work := CreateDueRun(st.work, schedule, actor, s.directory, s.now).work), except)
  {
    hide BooksOk, LeasesOk, RequestsOk, BlockedReachable, RunsAreSafe, CreateDueRun, GainsARun;
    var after := CreateDueRun(st.work, schedule, actor, s.directory, s.now);
    CreateDueRunKeepsBooks(st.work, schedule, actor, s.directory, s.now);
    RunsAreFresh(st.work);
    CreateDueRunRuns(st.work, schedule, actor, s.directory, s.now);
    GainedRunIsSafe(st, after.work, st.work.next, except);
    SafeRunsKeepCompany(st, after.work, except);
  }

  lemma CreateDueRunRuns(w: Tables, s: Id, actor: string, directory: set<string>, now: Time)
    ensures GainsARun(w, CreateDueRun(w, s, actor, directory, now).work, w.next)
  {
    hide ScheduleOf, FirstFilling, RunIdsOf, AdvanceSchedule, Normalized;
  }

  lemma RetryRunKeepsCompany(st: Store, r: Id, actor: string, assignee: Option<string>, s: Setting, except: set<Id>)
    requires InvExcept(st, except)
    ensures InvExcept(st.(work := RetryRun(st.work, r, actor, assignee, s.directory, s.now).work), except)
  {
    hide BooksOk, LeasesOk, RequestsOk, BlockedReachable, RunsAreSafe, RetryRun, GainsARun;
    var after := RetryRun(st.work, r, actor, assignee, s.directory, s.now);
    RetryRunKeepsBooks(st.work, r, actor, assignee, s.directory, s.now);
    RunsAreFresh(st.work);
    RetryRunRuns(st.work, r, actor, assignee, s.directory, s.now);
    GainedRunIsSafe(st, after.work, st.work.next, except);
    SafeRunsKeepCompany(st, after.work, except);
  }

  lemma RetryRunRuns(w: Tables, r: Id, actor: string, assignee: Option<string>, directory: set<string>, now: Time)
    ensures GainsARun(w, RetryRun(w, r, actor, assignee, directory, now).work, w.next)
  {
    hide ScheduleOf, FirstActive, RunIdsOf, Normalized;
  }

  lemma ReviseTaskKeepsCompany(st: Store, input: ReviseInput, s: Setting, except: set<Id>)
    requires InvExcept(st, except)
    ensures InvExcept(st.(work := ReviseTask(st.work, input, s.now).work), except)
  {
    hide BooksOk, LeasesOk, RequestsOk, BlockedReachable, RunsAreSafe, ReviseTask;
    ReviseTaskKeepsBooks(st.work, input, s.now);
    ReviseTaskRuns(st, input, s, except);
    SafeRunsKeepCompany(st, ReviseTask(st.work, input, s.now).work, except);
  }

  lemma ReviseTaskRuns(st: Store, input: ReviseInput, s: Setting, except: set<Id>)
    ensures RunsAreSafe(st, ReviseTask(st.work, input, s.now).work, except)
  {
    hide ApplyRevision, RevisedTask, Normalized;
    var w := st.work;
    if ReviseTask(w, input, s.now).result.Ok? {
      RevisionRuns(st, input.task, RevisedTask(w.tasks[input.task], input, s.now).value, input.sourceRun,
                   Normalized(Some(input.actor)).value, Normalized(Some(input.reason)).value, s.now, except);
    }
  }

  lemma RevisionRuns(st: Store, t: Id, task: Task, source: Option<Id>, actor: string, reason: string, now: Time,
                     except: set<Id>)
    requires source.Some? ==> source.value in st.work.runs
    ensures RunsAreSafe(st, ApplyRevision(st.work, t, task, source, actor, reason, now), except)
  {
  }

  lemma QuietOpsKeepCompany(st: Store, op: Op, s: Setting, except: set<Id>)
    requires InvExcept(st, except) && (op.MoveScheduleOp? || op.ArchiveTaskOp? || op.RestoreTaskOp? || op.RemarkOp?)
    ensures InvExcept(Step(st, op, s), except)
  {
    hide BooksOk, LeasesOk, RequestsOk, BlockedReachable, RunsAreSafe, Step;
    QuietOpsKeepBooks(st, op, s);
    QuietOpsChangeNoRun(st, op, s);
    SameRunsAreSafe(st, Step(st, op, s).work, except);
    SafeRunsKeepCompany(st, Step(st, op, s).work, except);
  }

  lemma QuietOpsKeepBooks(st: Store, op: Op, s: Setting)
    requires BooksOk(st.work) && (op.MoveScheduleOp? || op.ArchiveTaskOp? || op.RestoreTaskOp? || op.RemarkOp?)
    ensures BooksOk(Step(st, op, s).work)
  {
    hide BooksOk, MoveSchedule, ArchiveTask, RestoreTask, RecordEvent;
    hide CreateWork, CreateDueRun, RetryRun, ReviseTask, CancelWorkTask, CancelWorkRun, Dispatch, RetryDispatch;
    hide ExpireLeases, MoveRun, BlockRun, SettleRequest;
    match op
    case MoveScheduleOp(schedule, move, reason) => MoveScheduleKeepsBooks(st.work, schedule, move, reason, s.now);
    case ArchiveTaskOp(t, actor, reason) => ArchiveAndRestoreKeepBooks(st.work, t, actor, reason, s.now);
    case RestoreTaskOp(t, actor) => ArchiveAndRestoreKeepBooks(st.work, t, actor, None, s.now);
    case RemarkOp(r, actor, remark, text) =>
      RemarksAreRemarks(remark);
      RecordEventKeepsBooks(st.work, r, actor, RemarkName(remark), text, s.now);
  }

  lemma RemarksAreRemarks(remark: Remark)
    ensures Trim(RemarkName(remark)) == RemarkName(remark) && StatusOfEvent(RemarkName(remark)) == None
  {
    var name := RemarkName(remark);
    assert !IsSpace(name[0]) && !IsSpace(name[|name| - 1]);
    assert name[0] in {'a', 'p'};
  }

  lemma QuietOpsChangeNoRun(st: Store, op: Op, s: Setting)
    requires op.MoveScheduleOp? || op.ArchiveTaskOp? || op.RestoreTaskOp? || op.RemarkOp?
    ensures Step(st, op, s).work.runs == st.work.runs && st.work.next <= Step(st, op, s).work.next
    ensures Step(st, op, s) == st.(work := Step(st, op, s).work)
  {
    hide CreateWork, CreateDueRun, RetryRun, ReviseTask, CancelWorkTask, CancelWorkRun, Dispatch, RetryDispatch;
    hide ExpireLeases, MoveRun, BlockRun, SettleRequest;
  }

  // ---------------------------------------------------------------- leases

  /** Handing out ids for leases, requests and conversations leaves the books alone. */
  lemma HandedOutIdsKeepBooks(w: Tables, n: Id)
    requires BooksOk(w) && w.next <= n
    ensures BooksOk(w.(next := n))
  {
    hide *;
    BooksHaveGroups(w);
    HandedOutIdsAreProgress(w, n);
    ProgressKeepsRecords(w, w.(next := n));
    RunsAreOld(w);
    ProgressKeepsSchedules(w, w.(next := n));
    HandedOutIdsKeepLogs(w, n);
    HandedOutIdsKeepLives(w, n);
    BooksAreGroups(w.(next := n));
  }

  lemma HandedOutIdsAreProgress(w: Tables, n: Id)
    requires EventsOk(w) && w.next <= n
    ensures Progress(w, w.(next := n)) && SchedulesMoveOn(w, w.(next := n))
  {
  }

  lemma HandedOutIdsKeepLogs(w: Tables, n: Id)
    requires LogsOk(w) && w.next <= n
    ensures LogsOk(w.(next := n))
  {
    LogsOkFrame(w, w.(next := n));
  }

  lemma HandedOutIdsKeepLives(w: Tables, n: Id)
    requires LivesOk(w)
    ensures LivesOk(w.(next := n))
  {
    hide ArchivesOk, OneShotOk;
    assert ArchivesOk(w.(next := n)) by { SameStatuses(w, n); }
    forall t | t in w.tasks
      ensures Anchored(w.(next := n), t) && (IsOneShotTask(w.(next := n), t) ==> OneShotOk(w.(next := n), t))
    {
      assert Anchored(w, t) && (IsOneShotTask(w, t) ==> OneShotOk(w, t));
      if IsOneShotTask(w, t) { SameLifeKeepsOneShot(w, w.(next := n), t); }
    }
  }

  lemma SameStatuses(w: Tables, n: Id)
    requires ArchivesOk(w)
    ensures ArchivesOk(w.(next := n))
  {
  }

  /** A new pending lease for a queued run that has no pending one. */
  lemma AddLeaseKeepsCompany(st: Store, lease: Lease, except: set<Id>)
    requires InvExcept(st, except) && lease.status == Pending
    requires lease.run in st.work.runs && st.work.runs[lease.run].status == Queued
             && lease.assignee == st.work.runs[lease.run].assignee
    requires lease.retryOf.Some? ==> var f := lease.retryOf.value;
               f in st.leases && st.leases[f].run == lease.run && st.leases[f].status == LeaseFailed
    requires lease.source == FromRunAction ==> lease.retryOf.Some?
    requires !LatestIs(st, lease.run, {Pending})
    ensures InvExcept(AddLease(st, lease), except)
    ensures Latest(AddLease(st, lease), lease.run) == Some(st.work.next)
  {
    hide BooksOk;
    var st' := AddLease(st, lease);
    HandedOutIdsKeepBooks(st.work, st.work.next + 1);
    LatestFound(st', st.work.next);
    assert LeasesOk(st') by {
      forall l | l in st'.leases ensures LeaseFits(st', l) {
        if l != st.work.next {
          assert LeaseFits(st, l);
          if st.leases[l].status == Pending && st.leases[l].run == lease.run {
            LatestFound(st, l);
            assert false;
          }
        }
      }
    }
    assert forall r :: r in st.requests ==> RequestFits(st, r) ==> RequestFits(st', r);
  }

  /** Leases keep their identity; a pending lease may be taken or end, an acknowledged one may be
      canceled, and ended leases stay as they are. */
  ghost predicate LeasesGoOn(a: map<Id, Lease>, b: map<Id, Lease>) {
    && a.Keys <= b.Keys
    && (forall l :: l in a ==> SameLease(a[l], b[l]) && LeaseMoves(a[l].status, b[l].status))
  }

  predicate SameLease(a: Lease, b: Lease) {
    && a.run == b.run && a.assignee == b.assignee && a.retryOf == b.retryOf && a.source == b.source
    && a.createdBy == b.createdBy && a.dispatchedAt == b.dispatchedAt && a.expiresAt == b.expiresAt
  }

  predicate LeaseMoves(from: LeaseStatus, to: LeaseStatus) {
    from == to || (from == Pending && to != Pending) || (from == Acknowledged && to == LeaseCanceled)
  }

  lemma LeasesGoOnKeeps(st: Store, leases: map<Id, Lease>, except: set<Id>)
    requires InvExcept(st, except) && LeasesGoOn(st.leases, leases) && leases.Keys == st.leases.Keys
    ensures InvExcept(st.(leases := leases), except)
  {
    hide BooksOk;
    var st' := st.(leases := leases);
    forall l | l in st'.leases ensures LeaseFits(st', l) {
      assert LeaseFits(st, l);
    }
    assert forall r :: r in st.requests ==> RequestFits(st, r) ==> RequestFits(st', r);
  }

  lemma AcknowledgingGoesOn(st: Store, r: Id, assignee: string, now: Time)
    ensures LeasesGoOn(st.leases, AcknowledgeLease(st, r, assignee, now).leases)
  {
  }

  lemma FailingGoesOn(st: Store, r: Id, reason: string, now: Time)
    ensures LeasesGoOn(st.leases, FailPendingLease(st, r, reason, now).leases)
  {
  }

  lemma CancelingGoesOn(st: Store, ids: set<Id>, reason: string, now: Time)
    ensures LeasesGoOn(st.leases, CancelLeases(st, ids, reason, now))
  {
    hide Latest;
  }

  lemma ExpiringGoesOn(st: Store, now: Time)
    ensures LeasesGoOn(st.leases, ExpireLeases(st, now).leases)
  {
  }

  lemma ExpireLeasesKeepsCompany(st: Store, s: Setting, except: set<Id>)
    requires InvExcept(st, except)
    ensures InvExcept(ExpireLeases(st, s.now), except)
  {
    hide InvExcept, LeasesGoOn;
    ExpiringGoesOn(st, s.now);
    LeasesGoOnKeeps(st, ExpireLeases(st, s.now).leases, except);
  }

  lemma LatestLeaseFits(st: Store, r: Id)
    requires LeasesOk(st)
    ensures Latest(st, r).Some? ==> LeaseFits(st, Latest(st, r).value)
  {
  }

  lemma RetryDispatchKeepsCompany(st: Store, r: Id, actor: string, s: Setting, except: set<Id>)
    requires InvExcept(st, except)
    ensures InvExcept(RetryDispatch(st, r, actor, s).store, except)
  {
    hide BooksOk, BlockedReachable, RequestsOk, LeasesOk, AddLease;
    var l := Latest(st, r);
    LatestLeaseFits(st, r);
    if r in st.work.runs && st.work.runs[r].status == Queued && LatestIs(st, r, {LeaseFailed}) {
      AddLeaseKeepsCompany(st, PendingLease(r, st.leases[l.value].assignee, actor, l, FromRunAction, s), except);
    }
  }

  lemma LeaseForKeepsCompany(st: Store, r: Id, createdBy: string, s: Setting, except: set<Id>)
    requires InvExcept(st, except) && IsCandidate(st, r)
    ensures var leased := LeaseFor(st, r, createdBy, s);
            && InvExcept(leased, except) && leased.work == st.work.(next := leased.work.next)
            && st.work.next <= leased.work.next
            && leased.requests == st.requests && LatestIs(leased, r, {Pending}) && LeasesGoOn(st.leases, leased.leases)
  {
    hide InvExcept;
    if !IsExplicitRetry(st, r) {
      AddLeaseKeepsCompany(st, PendingLease(r, st.work.runs[r].assignee, createdBy, None, FromDispatcher, s), except);
      LeaseIdIsFresh(st, except);
    }
  }

  lemma LeaseIdIsFresh(st: Store, except: set<Id>)
    requires InvExcept(st, except)
    ensures forall l :: l in st.leases ==> l < st.work.next
  {
    hide BooksOk;
    forall l | l in st.leases ensures l < st.work.next {
      assert LeaseFits(st, l);
    }
  }

  /** With its assignee's name the latest pending lease can be taken, and then no lease of the run is
      pending any more. */
  lemma TakenLeaseLeavesNone(st: Store, r: Id, now: Time, except: set<Id>)
    requires InvExcept(st, except) && LatestIs(st, r, {Pending}) && r in st.work.runs
    ensures var st' := AcknowledgeLease(st, r, st.work.runs[r].assignee, now);
            && HasNoPending(st'.leases, r) && LatestIs(st', r, {Acknowledged}) && st'.work == st.work
            && st'.requests == st.requests
            && st'.leases.Keys == st.leases.Keys
  {
    hide BooksOk;
    var l := Latest(st, r).value;
    assert LeaseFits(st, l);
    var st' := AcknowledgeLease(st, r, st.work.runs[r].assignee, now);
    forall k | k in st'.leases && st'.leases[k].run == r ensures st'.leases[k].status != Pending {
      if k != l { assert LeaseFits(st, k); }
    }
    LatestLeaseIs(st'.leases, l, st.work.next);
  }

  lemma DispatchKeepsCompany(st: Store, createdBy: string, s: Setting, except: set<Id>)
    requires InvExcept(st, except)
    ensures InvExcept(Dispatch(st, createdBy, s).store, except)
  {
    hide InvExcept, LeaseFor, NextCandidate, AcknowledgeLease, FailPendingLease, MoveRun, LeasesGoOn;
    match NextCandidate(st)
    case None =>
    case Some(r) =>
      var leased := LeaseFor(st, r, createdBy, s);
      LeaseForKeepsCompany(st, r, createdBy, s, except);
      if st.work.runs[r].assignee !in s.homes {
        FailingGoesOn(leased, r, UNRESOLVED, s.now);
        FailPendingTouchesLeases(leased, r, UNRESOLVED, s.now);
        LeasesGoOnKeeps(leased, FailPendingLease(leased, r, UNRESOLVED, s.now).leases, except);
      } else {
        TakenRunStarts(leased, r, s.now, except);
      }
  }

  lemma FailPendingTouchesLeases(st: Store, r: Id, reason: string, now: Time)
    ensures var st' := FailPendingLease(st, r, reason, now);
            st' == st.(leases := st'.leases) && st'.leases.Keys == st.leases.Keys
  {
  }

  lemma TakenRunStarts(st: Store, r: Id, now: Time, except: set<Id>)
    requires InvExcept(st, except) && LatestIs(st, r, {Pending}) && r in st.work.runs
             && st.work.runs[r].status == Queued
    ensures var taken := AcknowledgeLease(st, r, st.work.runs[r].assignee, now);
            InvExcept(taken.(work := MoveRun(taken.work, StartInput(r, st.work.runs[r].assignee), now).work), except)
  {
    hide BooksOk, LeasesOk, RequestsOk, BlockedReachable, AcknowledgeLease, MoveRun, RunsAreSafe, LeasesGoOn;
    var assignee := st.work.runs[r].assignee;
    var taken := AcknowledgeLease(st, r, assignee, now);
    TakenLeaseLeavesNone(st, r, now, except);
    AcknowledgingGoesOn(st, r, assignee, now);
    LeasesGoOnKeeps(st, taken.leases, except);
    AssigneeIsNamed(st.work, r);
    MoveRunKeepsBooks(st.work, StartInput(r, assignee), now);
    MoveRunIsSafe(taken, StartInput(r, assignee), now, except);
    SafeRunsKeepCompany(taken, MoveRun(st.work, StartInput(r, assignee), now).work, except);
  }

  lemma AssigneeIsNamed(w: Tables, r: Id)
    requires BooksOk(w) && r in w.runs
    ensures NonBlank(w.runs[r].assignee)
  {
    hide RefsOk, HistoryOk, RunRevisionsOk, CountsOk, IdleOk, SlotsOk, ArchivesOk, OneShotsOk, LogsOk;
  }

  lemma MoveIsAStep(st: Store, input: MoveInput, s: Setting)
    ensures Step(st, MoveRunOp(input), s) == Worked(st, MoveRun(st.work, input, s.now)).store
  {
    hide MoveRun;
  }

  /** A move changes its own run only. */
  lemma MoveRunIsSafe(st: Store, input: MoveInput, now: Time, except: set<Id>)
    requires BooksOk(st.work) && NonBlank(input.actor)
    requires input.run in st.work.runs && st.work.runs[input.run].status == Queued ==>
               HasNoPending(st.leases, input.run)
    requires input.status == Blocked ==> input.run in except
    ensures RunsAreSafe(st, MoveRun(st.work, input, now).work, except)
  {
    hide BooksOk, MoveRun, HasNoPending;
    MoveRunChangesOne(st.work, input, now);
  }

  lemma MoveRunChangesOne(w: Tables, input: MoveInput, now: Time)
    requires BooksOk(w) && NonBlank(input.actor)
    ensures var w' := MoveRun(w, input, now).work;
            && w.next <= w'.next
            && (w'.runs == w.runs
                || (input.run in w.runs && input.run in w'.runs && w'.runs == w.runs[input.run := w'.runs[input.run]]
                    && SamePlace(w.runs[input.run], w'.runs[input.run]) && w'.runs[input.run].status == input.status))
  {
    hide *;
    BooksHaveGroups(w);
    MoveRunIsProgress(w, input, now);
    if MoveRun(w, input, now).result.Ok? {
      LivesHaveOneShots(w);
      MoveRunEffect(w, input, now);
      ProgressIsInPlace(w, MoveRun(w, input, now).work, input.run);
    } else {
      FailedMoveChangesNothing(w, input, now);
    }
  }

  lemma LivesHaveOneShots(w: Tables)
    requires LivesOk(w)
    ensures OneShotsOk(w)
  {
  }

  lemma ProgressIsInPlace(w: Tables, w': Tables, r: Id)
    requires Progress(w, w') && r in w.runs
    ensures r in w'.runs && SamePlace(w.runs[r], w'.runs[r]) && w.next <= w'.next
  {
  }

  // ---------------------------------------------------------------- cancellation

  lemma LatestStays(st: Store, w: Tables, r: Id)
    requires (forall l :: l in st.leases ==> l < st.work.next) && st.work.next <= w.next
    ensures Latest(st.(work := w), r) == Latest(st, r)
  {
    LatestMeans(st, r);
    LatestMeans(st.(work := w), r);
  }

  /** The leases and requests that a cancellation clears do not depend on the tables it leaves. */
  lemma CleanupCommutes(st: Store, w: Tables, ids: set<Id>, reason: string, now: Time)
    requires (forall l :: l in st.leases ==> l < st.work.next) && st.work.next <= w.next
    ensures Cleanup(st.(work := w), ids, reason, now) == Cleanup(st, ids, reason, now).(work := w)
  {
    forall r ensures Latest(st.(work := w), r) == Latest(st, r) {
      LatestStays(st, w, r);
    }
  }

  lemma CleanupKeepsCompany(st: Store, ids: set<Id>, reason: string, now: Time, except: set<Id>)
    requires InvExcept(st, except)
    ensures var st' := Cleanup(st, ids, reason, now);
            InvExcept(st', except + ids) && st'.work == st.work && forall r :: r in ids ==> HasNoPending(st'.leases, r)
  {
    hide BooksOk, LeasesOk, LeasesGoOn, CancelLeases;
    var leases := CancelLeases(st, ids, reason, now);
    CancelingGoesOn(st, ids, reason, now);
    CancelingKeepsIds(st, ids, reason, now);
    LeasesGoOnKeeps(st, leases, except);
    var st' := Cleanup(st, ids, reason, now);
    forall r | r in st'.requests ensures RequestFits(st', r) {
      assert RequestFits(st, r);
    }
    CanceledLeasesAreNotPending(st, ids, reason, now);
    LeasesFrame(st.(leases := leases), st');
  }

  lemma CancelingKeepsIds(st: Store, ids: set<Id>, reason: string, now: Time)
    ensures CancelLeases(st, ids, reason, now).Keys == st.leases.Keys
  {
  }

  lemma CanceledLeasesAreNotPending(st: Store, ids: set<Id>, reason: string, now: Time)
    requires LeasesOk(st)
    ensures forall r :: r in ids ==> HasNoPending(CancelLeases(st, ids, reason, now), r)
  {
    hide Latest;
    var leases := CancelLeases(st, ids, reason, now);
    forall r, l | r in ids && l in leases && leases[l].run == r ensures leases[l].status != Pending {
      assert LeaseFits(st, l);
      if st.leases[l].status == Pending { LatestFound(st, l); }
    }
  }

  lemma NoLongerBlocked(st: Store, except: set<Id>, ids: set<Id>)
    requires InvExcept(st, except + ids)
    requires forall r :: r in ids && r in st.work.runs ==> st.work.runs[r].status != Blocked
    ensures InvExcept(st, except)
  {
    hide BooksOk, LeasesOk, RequestsOk;
  }

  lemma ClearedRunsAreSafe(st: Store, w: Tables, ids: set<Id>, except: set<Id>)
    requires st.work.next <= w.next && w.runs.Keys == st.work.runs.Keys
    requires forall r :: r in st.work.runs ==> SamePlace(st.work.runs[r], w.runs[r])
    requires forall r :: r in w.runs && r !in ids ==> w.runs[r].status == st.work.runs[r].status
    requires forall r :: r in w.runs && r in ids ==> w.runs[r].status != Blocked
    requires forall r :: r in ids ==> HasNoPending(st.leases, r)
    ensures RunsAreSafe(st, w, except)
  {
    hide HasNoPending;
  }

  /** Canceling runs in the tables and clearing what hangs on them keeps the promises. */
  lemma CanceledAndCleared(st: Store, w: Tables, ids: set<Id>, reason: string, now: Time, except: set<Id>)
    requires InvExcept(st, except) && BooksOk(w) && st.work.next <= w.next
    requires w.runs.Keys == st.work.runs.Keys
    requires forall r :: r in st.work.runs ==> SamePlace(st.work.runs[r], w.runs[r])
    requires forall r :: r in w.runs && r !in ids ==> w.runs[r].status == st.work.runs[r].status
    requires forall r :: r in w.runs && r in ids ==> w.runs[r].status != Blocked
    ensures InvExcept(Cleanup(st.(work := w), ids, reason, now), except)
  {
    hide InvExcept, HasNoPending, Cleanup;
    LeaseIdIsFresh(st, except);
    CleanupCommutes(st, w, ids, reason, now);
    CleanupKeepsCompany(st, ids, reason, now, except);
    var cleared := Cleanup(st, ids, reason, now);
    ClearedRunsAreSafe(cleared, w, ids, except + ids);
    hide RunsAreSafe;
    SafeRunsKeepCompany(cleared, w, except + ids);
    NoLongerBlocked(cleared.(work := w), except, ids);
  }

  lemma CancelTaskKeepsCompany(st: Store, t: Id, actor: string, reason: Option<string>, s: Setting, except: set<Id>)
    requires InvExcept(st, except)
    ensures InvExcept(CancelWorkTask(st, t, actor, reason, s.now).store, except)
  {
    hide BooksOk, LeasesOk, RequestsOk, BlockedReachable, CancelTask, CleanupIds, Cleanup;
    var canceled := CancelTask(st.work, t, actor, reason, s.now);
    if t in st.work.tasks && canceled.result.Ok? {
      CancelTaskKeepsBooks(st.work, t, actor, reason, s.now);
      CancelTaskRuns(st.work, t, actor, reason, s.now);
      CanceledAndCleared(st, canceled.work, CleanupIds(st.work, t),
                         if reason.None? || reason.value == "" then "WorkTask canceled."
                         else reason.value, s.now, except);
    } else {
      if canceled.result.Err? { FailedCancelChangesNothing(st.work, t, actor, reason, s.now); }
    }
  }

  lemma CancelTaskRuns(w: Tables, t: Id, actor: string, reason: Option<string>, now: Time)
    requires BooksOk(w) && CancelTask(w, t, actor, reason, now).result.Ok?
    ensures var w' := CancelTask(w, t, actor, reason, now).work;
            && w.next <= w'.next && w'.runs.Keys == w.runs.Keys
            && (forall r :: r in w.runs ==>
                              && SamePlace(w.runs[r], w'.runs[r])
                              && (r in CleanupIds(w, t) ==> w'.runs[r].status == Canceled)
                              && (r !in CleanupIds(w, t) ==> w'.runs[r] == w.runs[r]))
  {
    hide CancelTask, BooksOk, RecordsOk, SchedulesOk, LivesOk, LogsOk, Progress, EventsOk, RefsOk;
    BooksHaveGroups(w);
    CancelTaskEffect(w, t, actor, reason, now);
    CancelTaskIsProgress(w, t, actor, reason, now);
    ProgressHandsOut(w, CancelTask(w, t, actor, reason, now).work);
  }

  lemma ProgressHandsOut(w: Tables, w': Tables)
    requires Progress(w, w')
    ensures w.next <= w'.next
  {
  }

  lemma CancelRunKeepsCompany(st: Store, r: Id, actor: string, reason: string, summary: Option<string>, s: Setting,
                              except: set<Id>)
    requires InvExcept(st, except) && NonBlank(actor)
    ensures InvExcept(CancelWorkRun(st, r, actor, reason, summary, s.now).store, except)
  {
    hide BooksOk, LeasesOk, RequestsOk, BlockedReachable, MoveRun, Cleanup;
    if r in st.work.runs && st.work.runs[r].status !in {Done, Failed} {
      var input := MoveInput(r, actor, Canceled, summary, Some(reason), None);
      var w := if st.work.runs[r].status == Canceled then st.work else MoveRun(st.work, input, s.now).work;
      if st.work.runs[r].status == Canceled {
        CanceledAndCleared(st, st.work, {r}, reason, s.now, except);
      } else if MoveRun(st.work, input, s.now).result.Ok? {
        MoveRunKeepsBooks(st.work, input, s.now);
        MoveRunMoves(st.work, input, s.now);
        CanceledAndCleared(st, w, {r}, reason, s.now, except);
      } else {
        FailedMoveChangesNothing(st.work, input, s.now);
      }
    }
  }

  lemma MoveRunMoves(w: Tables, input: MoveInput, now: Time)
    requires BooksOk(w) && NonBlank(input.actor) && MoveRun(w, input, now).result.Ok?
    ensures var w' := MoveRun(w, input, now).work;
            && input.run in w.runs && input.run in w'.runs && w.next <= w'.next
            && w'.runs == w.runs[input.run := w'.runs[input.run]]
            && SamePlace(w.runs[input.run], w'.runs[input.run]) && w'.runs[input.run].status == input.status
  {
    hide *;
    BooksHaveGroups(w);
    MoveRunIsProgress(w, input, now);
    LivesHaveOneShots(w);
    MoveRunEffect(w, input, now);
    ProgressIsInPlace(w, MoveRun(w, input, now).work, input.run);
  }

  // ---------------------------------------------------------------- the executor's moves

  lemma MoveRunKeepsCompany(st: Store, input: MoveInput, s: Setting, except: set<Id>)
    requires InvExcept(st, except) && NonBlank(input.actor) && Started(st, input.run)
    requires input.status == Blocked ==> input.run in except
    ensures InvExcept(st.(work := MoveRun(st.work, input, s.now).work), except)
  {
    hide BooksOk, LeasesOk, RequestsOk, BlockedReachable, MoveRun, RunsAreSafe, HasNoPending;
    MoveRunKeepsBooks(st.work, input, s.now);
    MoveRunIsSafe(st, input, s.now, except);
    SafeRunsKeepCompany(st, MoveRun(st.work, input, s.now).work, except);
  }

  /** Opening the channel of a blocked run either makes it reachable or reports a failure. */
  lemma OpenRecoveryKeepsCompany(st: Store, r: Id, channel: Channel, now: Time, except: set<Id>)
    requires InvExcept(st, except + {r})
    ensures var opening := OpenRecovery(st, r, channel, now);
            && InvExcept(opening.store, except + {r})
            && opening.store.work == st.work.(next := opening.store.work.next)
            && st.work.next <= opening.store.work.next
            && opening.store.leases == st.leases
            && (opening.failure.None? ==> InvExcept(opening.store, except))
  {
    hide InvExcept;
    var st' := OpenRecovery(st, r, channel, now).store;
    if HasOpenRequest(st, r) {
      OpenIsReachable(st, r, except);
    } else if st' != st {
      if r in st.requests { KnownRequestFits(st, r, except + {r}); }
      RequestPutKeepsCompany(st, st', r, except);
    }
  }

  lemma OpenIsReachable(st: Store, r: Id, except: set<Id>)
    requires InvExcept(st, except + {r}) && HasOpenRequest(st, r)
    ensures InvExcept(st, except)
  {
    hide BooksOk, LeasesOk, RequestsOk;
  }

  lemma KnownRequestFits(st: Store, r: Id, except: set<Id>)
    requires InvExcept(st, except) && r in st.requests
    ensures RequestFits(st, r)
  {
    hide BooksOk, LeasesOk;
  }

  /** An open request that is stored for a run makes it reachable; its conversation is the run's old one
      or a new one. */
  lemma RequestPutKeepsCompany(st: Store, st': Store, r: Id, except: set<Id>)
    requires InvExcept(st, except + {r}) && r in st'.requests
    requires st.work.next <= st'.work.next
             && st' == Store(st.work.(next := st'.work.next), st.leases, st.requests[r := st'.requests[r]])
    requires RequestFits(st', r) && st'.requests[r].status == Open
    requires if r in st.requests then st'.requests[r].conversation == st.requests[r].conversation
             else st.work.next <= st'.requests[r].conversation
    ensures InvExcept(st', except + {r}) && InvExcept(st', except)
  {
    hide BooksOk, LeasesOk;
    HandedOutIdsKeepBooks(st.work, st'.work.next);
    LeasesFrame(st, st');
    forall q | q in st'.requests ensures RequestFits(st', q) {
      if q != r { assert RequestFits(st, q); }
    }
  }

  lemma LeasesFrame(st: Store, st': Store)
    requires LeasesOk(st) && st'.leases == st.leases && st'.work.runs == st.work.runs && st.work.next <= st'.work.next
    ensures LeasesOk(st')
  {
    forall l | l in st'.leases ensures LeaseFits(st', l) {
      assert LeaseFits(st, l);
    }
  }

  lemma FailureReasonIsText(message: string)
    ensures NonBlank(CHANNEL_FAILED + message)
  {
    assert !IsSpace((CHANNEL_FAILED + message)[0]);
  }

  /** Failing a blocked run is always allowed, so its channel's failure never leaves it blocked. */
  lemma FailBlockedFails(w: Tables, r: Id, actor: string, message: string, summary: Option<string>, now: Time)
    requires r in w.runs && w.runs[r].status == Blocked && NonBlank(actor)
    ensures MoveRun(w, MoveInput(r, actor, Failed, summary, Some(CHANNEL_FAILED + message), None), now).result.Ok?
  {
    FailureReasonIsText(message);
  }

  lemma FailBlockedKeepsCompany(st: Store, r: Id, actor: string, message: string, now: Time, except: set<Id>)
    requires InvExcept(st, except + {r}) && NonBlank(actor) && r in st.work.runs && st.work.runs[r].status == Blocked
    ensures InvExcept(FailBlocked(st, r, actor, message, now).store, except)
  {
    hide BooksOk, LeasesOk, RequestsOk, BlockedReachable, MoveRun, RunsAreSafe, HasNoPending;
    var input := GivingUp(r, actor, message);
    FailBlockedFails(st.work, r, actor, message, input.summary, now);
    MoveRunKeepsBooks(st.work, input, now);
    MoveRunIsSafe(st, input, now, except + {r});
    SafeRunsKeepCompany(st, MoveRun(st.work, input, now).work, except + {r});
    MoveRunMoves(st.work, input, now);
    NoLongerBlocked(st.(work := MoveRun(st.work, input, now).work), except, {r});
  }

  lemma BlockRunKeepsCompany(st: Store, r: Id, actor: string, summary: Option<string>, reason: Option<string>,
                             channel: Channel, s: Setting, except: set<Id>)
    requires InvExcept(st, except) && NonBlank(actor) && Started(st, r)
    ensures InvExcept(BlockRun(st, r, actor, summary, reason, channel, s.now).store, except)
  {
    hide InvExcept, MoveRun, OpenRecovery, FailBlocked;
    var input := MoveInput(r, actor, Blocked, summary, reason, None);
    var moved := MoveRun(st.work, input, s.now);
    if moved.result.Err? {
      FailedMoveChangesNothing(st.work, input, s.now);
    } else {
      MoreExceptions(st, except, {r});
      MoveRunKeepsCompany(st, input, s, except + {r});
      BooksOfCompany(st, except);
      MoveRunMoves(st.work, input, s.now);
      var blocked := st.(work := moved.work);
      var opening := OpenRecovery(blocked, r, channel, s.now);
      OpenRecoveryKeepsCompany(blocked, r, channel, s.now, except);
      match opening.failure
      case None =>
      case Some(message) => FailBlockedKeepsCompany(opening.store, r, actor, message, s.now, except);
    }
  }

  lemma MoreExceptions(st: Store, except: set<Id>, more: set<Id>)
    requires InvExcept(st, except)
    ensures InvExcept(st, except + more)
  {
    hide BooksOk, LeasesOk, RequestsOk;
  }

  lemma BooksOfCompany(st: Store, except: set<Id>)
    requires InvExcept(st, except)
    ensures BooksOk(st.work)
  {
    hide BooksOk, LeasesOk, RequestsOk, BlockedReachable;
  }

  lemma SettleRequestKeepsCompany(st: Store, r: Id, s: Setting, except: set<Id>)
    requires InvExcept(st, except)
    ensures InvExcept(SettleRequest(st, r, s.now), except)
  {
    hide BooksOk, LeasesOk;
    var st' := SettleRequest(st, r, s.now);
    if st' != st {
      LeasesFrame(st, st');
      forall q | q in st'.requests ensures RequestFits(st', q) {
        assert RequestFits(st, q);
      }
    }
  }

  // ---------------------------------------------------------------- every operation, every run

  /** One step, with some runs still in the middle of an executor's operation. */
  lemma StepKeepsCompany(st: Store, op: Op, s: Setting, except: set<Id>)
    requires InvExcept(st, except) && Proper(st, op)
    ensures InvExcept(Step(st, op, s), except)
  {
    hide InvExcept, CreateWork, CreateDueRun, RetryRun, ReviseTask, MoveSchedule, CancelWorkTask, CancelWorkRun,
         ArchiveTask;
    hide RestoreTask, Dispatch, RetryDispatch, ExpireLeases, MoveRun, BlockRun, RecordEvent, SettleRequest;
    match op
    case CreateWorkOp(input) => CreateWorkKeepsCompany(st, input, s, except);
    case CreateDueRunOp(schedule, actor) => CreateDueRunKeepsCompany(st, schedule, actor, s, except);
    case RetryRunOp(r, actor, assignee) => RetryRunKeepsCompany(st, r, actor, assignee, s, except);
    case ReviseTaskOp(input) => ReviseTaskKeepsCompany(st, input, s, except);
    case MoveScheduleOp(_, _, _) => QuietOpsKeepCompany(st, op, s, except);
    case CancelTaskOp(t, actor, reason) => CancelTaskKeepsCompany(st, t, actor, reason, s, except);
    case CancelRunOp(r, actor, reason, summary) => CancelRunKeepsCompany(st, r, actor, reason, summary, s, except);
    case ArchiveTaskOp(_, _, _) => QuietOpsKeepCompany(st, op, s, except);
    case RestoreTaskOp(_, _) => QuietOpsKeepCompany(st, op, s, except);
    case DispatchOp(createdBy) => DispatchKeepsCompany(st, createdBy, s, except);
    case RetryDispatchOp(r, actor) => RetryDispatchKeepsCompany(st, r, actor, s, except);
    case ExpireLeasesOp => ExpireLeasesKeepsCompany(st, s, except);
    case MoveRunOp(input) => MoveRunKeepsCompany(st, input, s, except);
    case BlockRunOp(r, actor, summary, reason, channel) =>
      BlockRunKeepsCompany(st, r, actor, summary, reason, channel, s, except);
    case RemarkOp(_, _, _, _) => QuietOpsKeepCompany(st, op, s, except);
    case SettleRequestOp(r) => SettleRequestKeepsCompany(st, r, s, except);
  }

  /** The main theorem: every promise holds in every state that runs of the system reach. */
  lemma {:induction false} EveryReachableStateIsInOrder(st: Store, turns: seq<Turn>)
    requires Inv(st) && AllProper(st, turns)
    ensures Inv(After(st, turns))
    decreases |turns|
  {
    hide InvExcept, Step;
    if turns != [] {
      StepKeepsCompany(st, turns[0].op, turns[0].setting, {});
      EveryReachableStateIsInOrder(Step(st, turns[0].op, turns[0].setting), turns[1..]);
    }
  }

  lemma NewCompanyIsInOrder()
    ensures Inv(NEW_COMPANY)
  {
    hide BooksOk;
    NoWorkIsInOrder();
  }
}
