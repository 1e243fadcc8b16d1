/** One run at a time per employee: what a dispatch sees to, what resuming a blocked run does not, and a
    run of the system that loses it. */
module Exclusivity {
  import opened Prelude
  import opened WorkDomain
  import opened WorkOperations
  import opened WorkInvariants
  import opened OneShotsKept
  import opened RecordsKept
  import opened WorkHistory
  import opened Company
  import opened CompanyInvariants
  import opened CompanyKept
  import opened CompanyHistory
  import opened CompanyTheorems
  import opened DispatchOrder
  import opened Interference

  /** No member has two runs in progress. */
  ghost predicate Exclusive(w: Tables) {
    forall q, r :: q in w.runs && r in w.runs && q != r ==>
                     w.runs[q].status == InProgress && w.runs[r].status == InProgress ==>
                     w.runs[q].assignee != w.runs[r].assignee
  }

  /** A blocked run resumes while its assignee is busy with another. */
  predicate ResumesBusy(st: Store, op: Op) {
    && op.MoveRunOp? && op.moved.status == InProgress
    && op.moved.run in st.work.runs && st.work.runs[op.moved.run].status == Blocked
    && !Idle(st.work, st.work.runs[op.moved.run].assignee)
  }

  /** Every run in progress was so before, with the same assignee. */
  ghost predicate NoNewProgress(w: Tables, w': Tables) {
    forall r :: r in w'.runs && w'.runs[r].status == InProgress ==>
                  r in w.runs && w.runs[r].status == InProgress && w.runs[r].assignee == w'.runs[r].assignee
  }

  /** One run at a time is lost by one kind of step only: resuming a blocked run whose assignee is busy. */
  lemma ExclusivityIsLostExactly(st: Store, op: Op, s: Setting)
    requires Inv(st) && Proper(st, op) && Exclusive(st.work)
    ensures Exclusive(Step(st, op, s).work) <==> !ResumesBusy(st, op)
  {
    hide InvExcept, Step, Exclusive, Dispatch, MoveRun, Idle, BooksOk, NonBlank;
    match op
    case DispatchOp(createdBy) =>
      DispatchIsAStep(st, createdBy, s);
      DispatchKeepsExclusivity(st, createdBy, s);
    case MoveRunOp(input) =>
      BooksOfCompany(st, {});
      MoveIsAStep(st, input, s);
      MoveKeepsExclusivityExactly(st, input, s.now);
    case _ =>
      OtherStepsStartNothing(st, op, s);
      NoNewProgressKeepsExclusivity(st.work, Step(st, op, s).work);
  }

  /** No step of the run resumes a blocked run whose assignee is busy. */
  predicate NeverResumesBusy(st: Store, turns: seq<Turn>)
    decreases |turns|
  {
    turns == [] || (!ResumesBusy(st, turns[0].op)
                    && NeverResumesBusy(Step(st, turns[0].op, turns[0].setting), turns[1..]))
  }

  /** So every run of the system without such a step keeps to one run at a time. */
  lemma {:induction false} ExclusivityIsKeptWithout(st: Store, turns: seq<Turn>)
    requires Inv(st) && AllProper(st, turns) && Exclusive(st.work) && NeverResumesBusy(st, turns)
    ensures Exclusive(After(st, turns).work)
    decreases |turns|
  {
    hide InvExcept, Step, Exclusive, Proper, ResumesBusy;
    if turns != [] {
      var turn := turns[0];
      ExclusivityIsLostExactly(st, turn.op, turn.setting);
      StepKeepsCompany(st, turn.op, turn.setting, {});
      ExclusivityIsKeptWithout(Step(st, turn.op, turn.setting), turns[1..]);
    }
  }

  lemma NoNewProgressKeepsExclusivity(w: Tables, w': Tables)
    requires Exclusive(w) && NoNewProgress(w, w')
    ensures Exclusive(w')
  {
  }

  // ---------------------------------------------------------------- dispatch

  lemma DispatchKeepsExclusivity(st: Store, createdBy: string, s: Setting)
    requires Inv(st) && Exclusive(st.work)
    ensures Exclusive(Dispatch(st, createdBy, s).store.work)
  {
    hide InvExcept, NextCandidate, LeaseFor, AcknowledgeLease, FailPendingLease, MoveRun, LeasesGoOn, Exclusive,
         StartInput, NonBlank;
    match NextCandidate(st)
    case None =>
    case Some(r) =>
      var leased := LeaseFor(st, r, createdBy, s);
      LeaseForKeepsCompany(st, r, createdBy, s, {});
      if st.work.runs[r].assignee !in s.homes {
        FailPendingTouchesLeases(leased, r, UNRESOLVED, s.now);
        NoNewProgressKeepsExclusivity(st.work, Dispatch(st, createdBy, s).store.work);
      } else {
        var assignee := st.work.runs[r].assignee;
        BooksOfCompany(leased, {});
        AssigneeIsNamed(leased.work, r);
        TakenLeases(leased, r, assignee, s.now);
        StartedRunsMate(leased.work, r, assignee, s.now);
        IdleStartKeepsExclusivity(st.work, MoveRun(leased.work, StartInput(r, assignee), s.now).work, r);
      }
  }

  lemma StartedRunsMate(w: Tables, r: Id, assignee: string, now: Time)
    requires BooksOk(w) && r in w.runs && NonBlank(assignee)
    ensures var w' := MoveRun(w, StartInput(r, assignee), now).work;
            r in w'.runs && w'.runs == w.runs[r := w'.runs[r]] && w'.runs[r].assignee == w.runs[r].assignee
  {
    hide BooksOk, MoveRun, NonBlank;
    MoveRunChangesOne(w, StartInput(r, assignee), now);
  }

  lemma IdleStartKeepsExclusivity(w: Tables, w': Tables, r: Id)
    requires Exclusive(w) && r in w.runs && Idle(w, w.runs[r].assignee)
    requires r in w'.runs && w'.runs == w.runs[r := w'.runs[r]] && w'.runs[r].assignee == w.runs[r].assignee
    ensures Exclusive(w')
  {
  }

  // ---------------------------------------------------------------- the executor's moves

  lemma MoveKeepsExclusivityExactly(st: Store, input: MoveInput, now: Time)
    requires BooksOk(st.work) && NonBlank(input.actor) && Started(st, input.run) && Exclusive(st.work)
    ensures Exclusive(MoveRun(st.work, input, now).work) <==> !ResumesBusy(st, MoveRunOp(input))
  {
    hide BooksOk, MoveRun, NonBlank, Exclusive, Idle;
    var w' := MoveRun(st.work, input, now).work;
    MoveRunChangesOne(st.work, input, now);
    if st.work.runs[input.run].status == Blocked && input.status == InProgress {
      ResumedIsInProgress(st.work, input, now);
      if Idle(st.work, st.work.runs[input.run].assignee) {
        IdleStartKeepsExclusivity(st.work, w', input.run);
      } else {
        BusyStartLosesExclusivity(st.work, w', input.run);
      }
    } else {
      OtherMovesStartNothing(st.work, input, now);
      NoNewProgressKeepsExclusivity(st.work, w');
    }
  }

  lemma ResumedIsInProgress(w: Tables, input: MoveInput, now: Time)
    requires input.run in w.runs && w.runs[input.run].status == Blocked && input.status == InProgress
             && NonBlank(input.actor)
    ensures var w' := MoveRun(w, input, now).work;
            && input.run in w'.runs && w'.runs == w.runs[input.run := w'.runs[input.run]]
            && w'.runs[input.run].status == InProgress
  {
  }

  lemma BusyStartLosesExclusivity(w: Tables, w': Tables, r: Id)
    requires r in w.runs && w.runs[r].status == Blocked && !Idle(w, w.runs[r].assignee)
    requires r in w'.runs && w'.runs == w.runs[r := w'.runs[r]] && w'.runs[r].assignee == w.runs[r].assignee
             && w'.runs[r].status == InProgress
    ensures !Exclusive(w')
  {
    var q :| q in w.runs && w.runs[q].status == InProgress && w.runs[q].assignee == w.runs[r].assignee;
    assert q in w'.runs && w'.runs[q] == w.runs[q];
  }

  lemma OtherMovesStartNothing(w: Tables, input: MoveInput, now: Time)
    requires BooksOk(w) && NonBlank(input.actor) && input.run in w.runs
    requires w.runs[input.run].status != Queued && !(w.runs[input.run].status == Blocked && input.status == InProgress)
    ensures NoNewProgress(w, MoveRun(w, input, now).work)
  {
    hide BooksOk, NonBlank;
    MoveRunChangesOne(w, input, now);
    if input.status == InProgress { RefusedMoveChangesNothing(w, input, now); }
    hide MoveRun;
  }

  lemma RefusedMoveChangesNothing(w: Tables, input: MoveInput, now: Time)
    requires input.run in w.runs && input.status !in AllowedRunMoves(w.runs[input.run].status)
    ensures MoveRun(w, input, now).work == w
  {
  }

  // ---------------------------------------------------------------- all other operations

  lemma OtherStepsStartNothing(st: Store, op: Op, s: Setting)
    requires Inv(st) && Proper(st, op) && !op.DispatchOp? && !op.MoveRunOp?
    ensures NoNewProgress(st.work, Step(st, op, s).work)
  {
    hide InvExcept, NoNewProgress, CreateWork, CreateDueRun, RetryRun, ReviseTask, MoveSchedule, CancelWorkTask,
         CancelWorkRun;
    hide ArchiveTask, RestoreTask, Dispatch, RetryDispatch, ExpireLeases, MoveRun, BlockRun, RecordEvent, SettleRequest,
         BooksOk, GainsARun;
    BooksOfCompany(st, {});
    RunsAreFresh(st.work);
    match op
    case CreateWorkOp(input) =>
      CreateWorkRuns(st.work, input, s.directory, s.now);
      GainedRunStartsNothing(st.work, CreateWork(st.work, input, s.directory, s.now).work, st.work.next + 1);
    case CreateDueRunOp(schedule, actor) =>
      CreateDueRunRuns(st.work, schedule, actor, s.directory, s.now);
      GainedRunStartsNothing(st.work, CreateDueRun(st.work, schedule, actor, s.directory, s.now).work, st.work.next);
    case RetryRunOp(q, actor, assignee) =>
      RetryRunRuns(st.work, q, actor, assignee, s.directory, s.now);
      GainedRunStartsNothing(st.work, RetryRun(st.work, q, actor, assignee, s.directory, s.now).work, st.work.next);
    case ReviseTaskOp(input) => ReviseStartsNothing(st.work, input, s.now);
    case CancelTaskOp(t, actor, reason) => CancelTaskStartsNothing(st, t, actor, reason, s.now);
    case CancelRunOp(q, actor, reason, summary) => CancelRunStartsNothing(st, q, actor, reason, summary, s.now);
    case BlockRunOp(q, actor, summary, reason, channel) =>
      BlockStartsNothing(st, q, actor, summary, reason, channel, s);
    case _ =>
      LeaseStepsLeaveRuns(st, op, s);
      SameRunsStartNothing(st.work, Step(st, op, s).work);
  }

  lemma GainedRunStartsNothing(w: Tables, w': Tables, r: Id)
    requires GainsARun(w, w', r) && r !in w.runs
    ensures NoNewProgress(w, w')
  {
  }

  lemma SameRunsStartNothing(w: Tables, w': Tables)
    requires w'.runs == w.runs
    ensures NoNewProgress(w, w')
  {
  }

  lemma ReviseStartsNothing(w: Tables, input: ReviseInput, now: Time)
    ensures NoNewProgress(w, ReviseTask(w, input, now).work)
  {
    hide ReviseTask;
    if ReviseTask(w, input, now).result.Ok? {
      ReviseTaskEffect(w, input, now);
    } else {
      FailedRevisionChangesNothing(w, input, now);
    }
  }

  lemma CancelTaskStartsNothing(st: Store, t: Id, actor: string, reason: Option<string>, now: Time)
    requires BooksOk(st.work)
    ensures NoNewProgress(st.work, CancelWorkTask(st, t, actor, reason, now).store.work)
  {
    hide BooksOk, CancelTask, Cleanup;
    if t in st.work.tasks {
      if CancelTask(st.work, t, actor, reason, now).result.Ok? {
        CancelTaskRuns(st.work, t, actor, reason, now);
        CleanupKeepsTables(st.(work := CancelTask(st.work, t, actor, reason, now).work), CleanupIds(st.work, t),
                           if reason.None? || reason.value == "" then "WorkTask canceled." else reason.value, now);
      } else {
        FailedCancelChangesNothing(st.work, t, actor, reason, now);
      }
    }
  }

  lemma CancelRunStartsNothing(st: Store, q: Id, actor: string, reason: string, summary: Option<string>, now: Time)
    requires BooksOk(st.work) && NonBlank(actor)
    ensures NoNewProgress(st.work, CancelWorkRun(st, q, actor, reason, summary, now).store.work)
  {
    hide BooksOk, MoveRun, Cleanup, NonBlank;
    var input := MoveInput(q, actor, Canceled, summary, Some(reason), None);
    MoveRunChangesOne(st.work, input, now);
    CleanupKeepsTables(st, {q}, reason, now);
    CleanupKeepsTables(st.(work := MoveRun(st.work, input, now).work), {q}, reason, now);
  }

  lemma BlockStartsNothing(st: Store, q: Id, actor: string, summary: Option<string>, reason: Option<string>,
                           channel: Channel, s: Setting)
    requires Inv(st) && NonBlank(actor) && Started(st, q)
    ensures NoNewProgress(st.work, BlockRun(st, q, actor, summary, reason, channel, s.now).store.work)
  {
    hide InvExcept, MoveRun, OpenRecovery, FailBlocked, BooksOk, RequestsGoOn, NonBlank;
    var input := MoveInput(q, actor, Blocked, summary, reason, None);
    BooksOfCompany(st, {});
    MoveRunChangesOne(st.work, input, s.now);
    if MoveRun(st.work, input, s.now).result.Ok? {
      var blocked := st.(work := MoveRun(st.work, input, s.now).work);
      OpenRecoveryShape(blocked, q, channel, s.now);
      BlockedBooks(st, input, channel, s, {});
      var opening := OpenRecovery(blocked, q, channel, s.now);
      if opening.failure.Some? { FailingStartsNothing(opening.store, q, actor, opening.failure.value, s.now); }
    }
  }

  lemma FailingStartsNothing(st: Store, q: Id, actor: string, message: string, now: Time)
    requires BooksOk(st.work) && NonBlank(actor)
    ensures NoNewProgress(st.work, FailBlocked(st, q, actor, message, now).store.work)
  {
    hide BooksOk, MoveRun, NonBlank;
    MoveRunChangesOne(st.work, GivingUp(q, actor, message), now);
  }

  // ---------------------------------------------------------------- a run of the system that loses it

  /** Work for A, asked for by B. */
  function Order(): CreateInput {
    CreateInput("T", None, "B", "A", Manual, "S", None, None, "C", Immediate, None, None, None, map[])
  }

  const NOON := Setting({"A"}, {"A"}, 0, 1)

  /** Two runs of A that B has asked for, in these statuses; no lease of the second waits. */
  ghost predicate Two(st: Store, q: Id, r: Id, a: RunStatus, b: RunStatus) {
    && Reachable(st) && q != r && st.work.runs.Keys == {q, r}
    && st.work.runs[q].status == a && st.work.runs[r].status == b
    && (forall p :: p in st.work.runs ==> st.work.runs[p].assignee == "A" && AskedForByB(st, st.work.runs[p].task))
    && Latest(st, r).None?
  }

  predicate AskedForByB(st: Store, t: Id) {
    t in st.work.tasks && st.work.tasks[t].origin.requester.None? && st.work.tasks[t].origin.createdBy == "B"
  }

  lemma OneLetterTexts()
    ensures forall text :: text in {"A", "B", "C", "S", "T", "W"} ==>
              Normalized(Some(text)) == Some(text) && NonBlank(text)
  {
    forall text | text in {"A", "B", "C", "S", "T", "W"} ensures Normalized(Some(text)) == Some(text)
    && NonBlank(text) {
      LetterIsText(text);
    }
  }

  /** The order adds one queued run of A, for a task of its own that B has asked for. */
  lemma OrderAddsARun(w: Tables)
    requires w.next !in w.tasks && w.next + 1 !in w.runs
    ensures var w' := CreateWork(w, Order(), {"A"}, 0).work;
            && w.next + 1 in w'.runs && w'.runs == w.runs[w.next + 1 := w'.runs[w.next + 1]]
            && w'.runs[w.next + 1].status == Queued && w'.runs[w.next + 1].assignee == "A"
            && w'.runs[w.next + 1].task == w.next
            && w.next in w'.tasks && w'.tasks == w.tasks[w.next := w'.tasks[w.next]]
            && w'.tasks[w.next].origin.createdBy == "B" && w'.tasks[w.next].origin.requester.None?
  {
    OneLetterTexts();
    hide Normalized, ScheduleOf;
    assert Normalized(None).None? by { NoTextIsNoText(); }
  }

  lemma NoTextIsNoText()
    ensures Normalized(None).None?
  {
  }

  /** After two orders there are two queued runs and no lease. */
  lemma TwoOrders() returns (st: Store, q: Id, r: Id)
    ensures Two(st, q, r, Queued, Queued) && Latest(st, q).None?
  {
    hide Reachable, Step, CreateWork, Order, BooksOk, InvExcept, Proper, Latest;
    NewCompanyIsReachable();
    OrderIsAStep(NEW_COMPANY);
    OrderAddsARun(NO_WORK);
    var st1 := Step(NEW_COMPANY, CreateWorkOp(Order()), NOON);
    ReachableStep(NEW_COMPANY, CreateWorkOp(Order()), NOON);
    ReachableIsInOrder(st1);
    RunsAreFresh(st1.work);
    TasksAreFresh(st1.work);
    OrderIsAStep(st1);
    OrderAddsARun(st1.work);
    st := Step(st1, CreateWorkOp(Order()), NOON);
    ReachableStep(st1, CreateWorkOp(Order()), NOON);
    q, r := 1, st1.work.next + 1;
  }

  lemma OrderIsAStep(st: Store)
    ensures Step(st, CreateWorkOp(Order()), NOON) == st.(work := CreateWork(st.work, Order(), {"A"}, 0).work)
    ensures Proper(st, CreateWorkOp(Order()))
  {
    hide CreateWork;
  }

  lemma TasksAreFresh(w: Tables)
    requires BooksOk(w)
    ensures w.next !in w.tasks
  {
    hide HistoryOk, RunRevisionsOk, CountsOk, IdleOk, SlotsOk, ArchivesOk, OneShotsOk, TextsOk;
  }

  // ---------------------------------------------------------------- dispatching the one and blocking it

  lemma DispatchStarts(st: Store, createdBy: string, s: Setting, q: Id)
    requires Inv(st) && NextCandidate(st) == Some(q) && st.work.runs[q].assignee in s.homes
    ensures var st' := Dispatch(st, createdBy, s).store;
            && q in st'.work.runs && st'.work.runs == st.work.runs[q := st'.work.runs[q]]
            && st'.work.runs[q].status == InProgress && st'.work.runs[q].assignee == st.work.runs[q].assignee
            && st'.work.runs[q].task == st.work.runs[q].task
  {
    hide InvExcept, NextCandidate, LeaseFor, AcknowledgeLease, FailPendingLease, MoveRun, LeasesGoOn, StartInput,
         NonBlank;
    var leased := LeaseFor(st, q, createdBy, s);
    LeaseForKeepsCompany(st, q, createdBy, s, {});
    BooksOfCompany(leased, {});
    AssigneeIsNamed(leased.work, q);
    var assignee := st.work.runs[q].assignee;
    TakenLeases(leased, q, assignee, s.now);
    StartedRunIsInProgress(leased.work, q, s.now);
  }

  lemma StartedRunIsInProgress(w: Tables, q: Id, now: Time)
    requires BooksOk(w) && q in w.runs && w.runs[q].status == Queued && NonBlank(w.runs[q].assignee)
    ensures var w' := MoveRun(w, StartInput(q, w.runs[q].assignee), now).work;
            && q in w'.runs && w'.runs == w.runs[q := w'.runs[q]] && SamePlace(w.runs[q], w'.runs[q])
            && w'.runs[q].status == InProgress
  {
    StartingIsAllowed(w, q, now);
    hide MoveRun, BooksOk;
    MoveRunMoves(w, StartInput(q, w.runs[q].assignee), now);
  }

  /** Every run whose assignee is free is a candidate, if no lease of it waits. */
  lemma SomeRunIsChosen(st: Store, r: Id)
    requires Inv(st) && r in st.work.runs && st.work.runs[r].status == Queued && st.work.runs[r].task in st.work.tasks
    requires Idle(st.work, st.work.runs[r].assignee) && Latest(st, r).None?
    ensures NextCandidate(st).Some?
  {
    assert IsCandidate(st, r);
    BooksOfCompany(st, {});
    RunsAreFresh(st.work);
    hide InvExcept, IsCandidate, BooksOk;
    TheChoiceIsTheOldest(st);
  }

  lemma OneIsDispatched() returns (st: Store, q: Id, r: Id)
    ensures Two(st, q, r, InProgress, Queued)
  {
    hide Reachable, InvExcept, BooksOk, NextCandidate, Dispatch, Step, Latest, CompanyGoesOn, BlockRun, LeasesGoOn,
         Exclusive;
    var st0, a, b := TwoOrders();
    ReachableIsInOrder(st0);
    SomeRunIsChosen(st0, a);
    q := NextCandidate(st0).value;
    r := if q == a then b else a;
    DispatchStarts(st0, "", NOON, q);
    DispatchTouchesOne(st0, "", NOON, r, {});
    DispatchIsAStep(st0, "", NOON);
    StepGoesOn(st0, DispatchOp(""), NOON, {});
    st := Step(st0, DispatchOp(""), NOON);
    ReachableStep(st0, DispatchOp(""), NOON);
    RequestersStay(st0, st);
  }

  lemma RequestersStay(st: Store, st': Store)
    requires CompanyGoesOn(st, st')
    ensures forall t :: AskedForByB(st, t) ==> AskedForByB(st', t)
  {
  }

  /** B can be reached, so A's run is blocked. */
  lemma BlockingWorks(st: Store, q: Id, now: Time)
    requires Inv(st) && q in st.work.runs && st.work.runs[q].status == InProgress && st.work.runs[q].assignee == "A"
    requires AskedForByB(st, st.work.runs[q].task)
    ensures var st' := BlockRun(st, q, "A", None, Some("W"), Works, now).store;
            && q in st'.work.runs && st'.work.runs == st.work.runs[q := st'.work.runs[q]] && st'.leases == st.leases
            && st'.work.runs[q].status == Blocked && SamePlace(st.work.runs[q], st'.work.runs[q])
  {
    var input := MoveInput(q, "A", Blocked, None, Some("W"), None);
    hide MoveRun, InvExcept, BooksOk, Normalized, NonBlank, OpenRecovery, FailBlocked, CompanyGoesOn;
    OneLetterTexts();
    BooksOfCompany(st, {});
    BlockingIsAllowed(st.work, input, now);
    MoveRunMoves(st.work, input, now);
    var blocked := st.(work := MoveRun(st.work, input, now).work);
    MoveRunGoesOn(st.work, input, now);
    OnlyWorkGoesOn(st, blocked.work);
    RequestersStay(st, blocked);
    OpeningWorks(blocked, q, now);
  }

  lemma BlockingIsAllowed(w: Tables, input: MoveInput, now: Time)
    requires input.run in w.runs && w.runs[input.run].status == InProgress && input.status == Blocked
    requires NonBlank(input.actor) && input.reason.Some? && NonBlank(input.reason.value)
    ensures MoveRun(w, input, now).result.Ok?
  {
  }

  lemma OpeningWorks(st: Store, q: Id, now: Time)
    requires q in st.work.runs && st.work.runs[q].status == Blocked && st.work.runs[q].assignee == "A"
    requires AskedForByB(st, st.work.runs[q].task)
    ensures var opening := OpenRecovery(st, q, Works, now);
            opening.failure.None? && opening.store.work.runs == st.work.runs && opening.store.leases == st.leases
  {
    assert "A"[0] != "B"[0];
  }

  lemma OneIsBlocked() returns (st: Store, q: Id, r: Id)
    ensures Two(st, q, r, Blocked, Queued)
  {
    hide Reachable, InvExcept, BooksOk, NextCandidate, Dispatch, Step, Latest, CompanyGoesOn, BlockRun, LeasesGoOn,
         Exclusive;
    var st0;
    st0, q, r := OneIsDispatched();
    ReachableIsInOrder(st0);
    var op := BlockRunOp(q, "A", None, Some("W"), Works);
    OneLetterTexts();
    BlockingWorks(st0, q, NOON.now);
    BlockStep(st0, q);
    StepGoesOn(st0, op, NOON, {});
    StepKeepsCompany(st0, op, NOON, {});
    st := Step(st0, op, NOON);
    ReachableStep(st0, op, NOON);
    RequestersStay(st0, st);
    LeaseIdIsFresh(st0, {});
    LeaseIdIsFresh(st, {});
    LatestMeans(st0, r);
    LatestMeans(st, r);
  }

  lemma BlockStep(st: Store, q: Id)
    ensures Step(st, BlockRunOp(q, "A", None, Some("W"), Works), NOON) == BlockRun(st, q, "A", None, Some("W"), Works,
                                                                                   NOON.now).store
  {
    hide BlockRun;
  }

  /** With the one blocked, A is free, and the other is dispatched. */
  lemma TheOtherIsDispatched() returns (st: Store, q: Id, r: Id)
    ensures Reachable(st) && q != r && st.work.runs.Keys == {q, r} && st.work.runs[q].status == Blocked
            && st.work.runs[r].status == InProgress
    ensures forall p :: p in st.work.runs ==> st.work.runs[p].assignee == "A"
  {
    hide Reachable, InvExcept, BooksOk, NextCandidate, Dispatch, Step, Latest, CompanyGoesOn, BlockRun, LeasesGoOn,
         Exclusive;
    var st0;
    st0, q, r := OneIsBlocked();
    ReachableIsInOrder(st0);
    SomeRunIsChosen(st0, r);
    DispatchStarts(st0, "", NOON, r);
    DispatchIsAStep(st0, "", NOON);
    st := Step(st0, DispatchOp(""), NOON);
    ReachableStep(st0, DispatchOp(""), NOON);
  }

  /** A run of the system after which A has two runs in progress: two orders, a dispatch, a block, another
      dispatch, and the blocked run resumes. */
  lemma ExclusivityIsLost()
    ensures exists st :: Reachable(st) && !Exclusive(st.work)
  {
    hide Reachable, InvExcept, BooksOk, Step, Normalized, NonBlank;
    var st, q, r := TheOtherIsDispatched();
    ReachableIsInOrder(st);
    OneLetterTexts();
    var op := MoveRunOp(MoveInput(q, "A", InProgress, None, None, None));
    assert Exclusive(st.work) && ResumesBusy(st, op) && Proper(st, op);
    hide Exclusive, ResumesBusy, Proper;
    ExclusivityIsLostExactly(st, op, NOON);
    ReachableStep(st, op, NOON);
    assert Reachable(Step(st, op, NOON)) && !Exclusive(Step(st, op, NOON).work);
  }
}
