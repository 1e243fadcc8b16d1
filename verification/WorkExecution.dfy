/** The executor: it drives a provider through bounded turns, applies what each turn reports, and never
    has the company to itself while it waits. */
module WorkExecution {
  import opened Prelude
  import opened WorkDomain
  import opened WorkOperations
  import opened RunLog
  import opened WorkInvariants
  import opened BooksKept
  import opened WorkHistory
  import opened Company
  import opened CompanyInvariants
  import opened CompanyKept
  import opened CompanyHistory
  import opened Interference
  import opened CompanyDatabase
  import opened WorkBlockedRecovery
  import opened FinishWorkTurn
  import opened CompanyEffects
  import opened ReportEffects
  import opened ProviderTurns
  import opened OneShotsKept

  // ---------------------------------------------------------------- recovery channels

  /** What the failure of a recovery channel says. */
  function ChannelText(channel: Channel): string {
    if channel.Works? then "" else channel.message
  }

  lemma SameMemberMentionsNothing()
    ensures !MentionsMissingCall(SAME_MEMBER) && !MentionsMissingCall("")
  {
    hide MentionsMissingCall;
    if MentionsMissingCall(SAME_MEMBER) { MentioningTakesAWord(SAME_MEMBER); }
    if MentionsMissingCall("") { MentioningTakesAWord(""); }
  }

  /** What a channel that cannot be opened for a blocked run reports. */
  lemma OpeningFailsWith(st: Store, r: Id, channel: Channel, now: Time)
    requires r in st.work.runs && st.work.runs[r].task in st.work.tasks && st.work.runs[r].status == Blocked
    requires OpenRecovery(st, r, channel, now).failure.Some?
    ensures OpenRecovery(st, r, channel, now).failure.value in {ChannelText(channel), SAME_MEMBER}
  {
  }

  // ---------------------------------------------------------------- what a report comes to

  /** From a to b as reported, where others may have canceled the run before or after. */
  predicate Reported(status: ResultStatus, a: RunStatus, b: RunStatus) {
    match status
    case Complete => b == Done
    case HasFailed => b == Failed
    case WasCanceled => b == Canceled
    case IsBlocked => b in {Blocked, Canceled}
    case StillInProgress => b == Canceled || (if a in {Blocked, InProgress} then b == InProgress else b == a)
  }

  // ---------------------------------------------------------------- what a step of the executor keeps

  /** The executor holds a started run of its own. */
  ghost predicate Holds(st: Store, r: Id, employee: string) {
    Inv(st) && r in st.work.runs && st.work.runs[r].status != Queued && st.work.runs[r].assignee == employee
  }

  /** A queued run is started only once its lease has been taken: the dispatch runner sees to that. */
  predicate MayStart(st: Store, r: Id) {
    r in st.work.runs && st.work.runs[r].status == Queued ==> NoLeaseWaits(st, r)
  }

  predicate IsBlockedRun(st: Store, r: Id) {
    r in st.work.runs && st.work.runs[r].status == Blocked
  }

  predicate IsBlockedFor(st: Store, r: Id, employee: string) {
    IsBlockedRun(st, r) && st.work.runs[r].assignee == employee
  }

  predicate IsCanceledFor(st: Store, r: Id, employee: string) {
    r in st.work.runs && st.work.runs[r].status == Canceled && st.work.runs[r].assignee == employee
  }

  predicate IsQueuedFor(st: Store, r: Id, employee: string) {
    r in st.work.runs && st.work.runs[r].status == Queued && st.work.runs[r].assignee == employee
  }

  lemma FreshRunHasNoLease(st: Store, r: Id)
    requires Inv(st) && r !in st.work.runs
    ensures NoLeaseWaits(st, r)
  {
    hide BooksOk;
    forall l | l in st.leases ensures st.leases[l].run in st.work.runs {
      assert LeaseFits(st, l);
    }
  }

  function StatusIn(st: Store, r: Id): RunStatus
    requires r in st.work.runs
  {
    st.work.runs[r].status
  }

  lemma GoingOnKeepsRun(a: Store, b: Store, r: Id)
    requires CompanyGoesOn(a, b) && r in a.work.runs
    ensures r in b.work.runs && b.work.runs[r].assignee == a.work.runs[r].assignee
    ensures IsTerminal(a.work.runs[r].status) ==> b.work.runs[r] == a.work.runs[r]
  {
    assert RunGoesOn(a.work.runs[r], b.work.runs[r]);
  }

  lemma HolderIsNamed(st: Store, r: Id, except: set<Id>)
    requires InvExcept(st, except) && r in st.work.runs
    ensures NonBlank(st.work.runs[r].assignee) && st.work.runs[r].task in st.work.tasks
    ensures NonBlank(st.work.tasks[st.work.runs[r].task].acceptanceCriteria)
  {
    hide BooksOk;
    AssigneeIsNamed(st.work, r);
    TaskHasCriteria(st.work, r);
  }

  lemma TaskHasCriteria(w: Tables, r: Id)
    requires BooksOk(w) && r in w.runs
    ensures w.runs[r].task in w.tasks && NonBlank(w.tasks[w.runs[r].task].acceptanceCriteria)
  {
    hide HistoryOk, RunRevisionsOk, CountsOk, IdleOk, SlotsOk, ArchivesOk, OneShotsOk, LogsOk;
  }

  /** A move either happens as asked or changes nothing, just as the checks of moveWorkRun say. */
  ghost predicate MovesAsAsked(st: Store, st': Store, ok: bool, input: MoveInput) {
    && input.run in st.work.runs && input.run in st'.work.runs
    && (ok <==> MoveError(st.work.runs[input.run], input).None?)
    && (ok ==> StatusIn(st', input.run) == input.status && input.status in AllowedRunMoves(StatusIn(st, input.run)))
    && (!ok ==> st' == st)
  }

  lemma ExecutorMoves(st: Store, input: MoveInput, s: Setting, except: set<Id>)
    requires InvExcept(st, except) && NonBlank(input.actor) && input.run in st.work.runs
    requires Started(st, input.run) || NoLeaseWaits(st, input.run)
    requires input.status == Blocked ==> input.run in except
    ensures var outcome := MoveRun(st.work, input, s.now);
            var st' := st.(work := outcome.work);
            InvExcept(st', except) && CompanyGoesOn(st, st') && MovesAsAsked(st, st', outcome.result.Ok?, input)
  {
    hide BooksOk, LeasesOk, RequestsOk, BlockedReachable, MoveRun, MoveError, HasNoPending, RunsAreSafe, CompanyGoesOn;
    if NoLeaseWaits(st, input.run) { NoLeaseWaitsMeansNoPending(st, input.run, except); }
    MoveRunKeepsBooks(st.work, input, s.now);
    MoveRunIsSafe(st, input, s.now, except);
    SafeRunsKeepCompany(st, MoveRun(st.work, input, s.now).work, except);
    MoveRunGoesOn(st.work, input, s.now);
    OnlyWorkGoesOn(st, MoveRun(st.work, input, s.now).work);
    MoveRunDecides(st.work, input, s.now);
    if MoveRun(st.work, input, s.now).result.Ok? {
      MoveRunMoves(st.work, input, s.now);
    } else {
      FailedMoveChangesNothing(st.work, input, s.now);
    }
  }

  lemma MoveRunDecides(w: Tables, input: MoveInput, now: Time)
    requires NonBlank(input.actor) && input.run in w.runs
    ensures match MoveError(w.runs[input.run], input)
            case None => MoveRun(w, input, now).result.Ok?
            case Some(error) => MoveRun(w, input, now).result == Err(error)
    ensures MoveRun(w, input, now).result.Ok? ==> input.status in AllowedRunMoves(w.runs[input.run].status)
  {
    hide SettleTask, MovedRun;
  }

  /** A remark is recorded and changes no run. */
  lemma ExecutorRemarks(st: Store, r: Id, actor: string, remark: Remark, text: string, s: Setting, except: set<Id>)
    requires InvExcept(st, except) && r in st.work.runs && NonBlank(actor) && NonBlank(text)
    ensures var outcome := RecordEvent(st.work, r, actor, RemarkName(remark), text, s.now);
            var st' := st.(work := outcome.work);
            outcome.result.Ok? && InvExcept(st', except) && CompanyGoesOn(st, st') && st'.work.runs == st.work.runs
  {
    hide InvExcept, CompanyGoesOn;
    QuietOpsKeepCompany(st, RemarkOp(r, actor, remark, text), s, except);
    StepGoesOn(st, RemarkOp(r, actor, remark, text), s, except);
    RemarksAreRemarks(remark);
    assert NonBlank(RemarkName(remark)) by { assert !IsSpace(RemarkName(remark)[0]); }
    hide CreateWork, CreateDueRun, RetryRun, ReviseTask, MoveSchedule, CancelWorkTask, CancelWorkRun, ArchiveTask,
         RestoreTask;
    hide Dispatch, RetryDispatch, ExpireLeases, MoveRun, BlockRun, SettleRequest, RemarkName, Trim, NonBlank,
         StatusOfEvent;
  }

  /** Opening a channel changes no run, and succeeds only by making a blocked run reachable. */
  lemma ExecutorOpens(st: Store, r: Id, channel: Channel, now: Time)
    requires InvExcept(st, {r})
    ensures var opening := OpenRecovery(st, r, channel, now);
            && InvExcept(opening.store, {r}) && CompanyGoesOn(st, opening.store)
            && opening.store.work.runs == st.work.runs
            && (opening.failure.None? ==> Inv(opening.store))
            && (HasOpenRequest(st, r) ==> HasOpenRequest(opening.store, r))
  {
    hide InvExcept, OpenRecovery, CompanyGoesOn;
    assert {} + {r} == {r};
    OpenRecoveryKeepsCompany(st, r, channel, now, {});
    OpenRecoveryGoesOn(st, r, channel, now);
    OpenStaysOpen(st, r, channel, now);
  }

  lemma OpenStaysOpen(st: Store, r: Id, channel: Channel, now: Time)
    ensures HasOpenRequest(st, r) ==> HasOpenRequest(OpenRecovery(st, r, channel, now).store, r)
  {
  }

  lemma NotBlockedIsInOrder(st: Store, r: Id)
    requires InvExcept(st, {r}) && (r in st.work.runs ==> st.work.runs[r].status != Blocked)
    ensures Inv(st)
  {
    hide InvExcept;
    assert {} + {r} == {r};
    NoLongerBlocked(st, {}, {r});
  }

  lemma InOrderExcept(st: Store, r: Id)
    requires Inv(st)
    ensures InvExcept(st, {r})
  {
    hide InvExcept;
    assert {} + {r} == {r};
    MoreExceptions(st, {}, {r});
  }

  /** What opening the channel of a blocked run comes to. */
  function Opened(st: Store, r: Id, actor: string, channel: Channel, now: Time): Effect<Id> {
    AfterOpening(OpenRecovery(st, r, channel, now), r, actor, now)
  }

  lemma BlockingInSteps(st: Store, r: Id, actor: string, summary: Option<string>, reason: Option<string>,
                        channel: Channel, now: Time)
    ensures var moved := MoveRun(st.work, MoveInput(r, actor, Blocked, summary, reason, None), now);
            BlockRun(st, r, actor, summary, reason, channel, now) ==
              if moved.result.Err? then Worked(st, moved) else Opened(Worked(st, moved).store, r, actor, channel, now)
  {
    hide MoveRun, OpenRecovery, FailBlocked;
  }

  lemma RemarkIsAStep(st: Store, r: Id, actor: string, remark: Remark, text: string, now: Time)
    ensures Step(st, RemarkOp(r, actor, remark, text), Setting({}, {}, now, 0)) ==
              Worked(st, RecordEvent(st.work, r, actor, RemarkName(remark), text, now)).store
  {
    hide RecordEvent, RemarkName;
  }

  lemma BlockIsAStep(st: Store, r: Id, actor: string, summary: Option<string>, reason: Option<string>, channel: Channel,
                     now: Time)
    ensures Step(st, BlockRunOp(r, actor, summary, reason, channel), Setting({}, {}, now, 0)) ==
              BlockRun(st, r, actor, summary, reason, channel, now).store
  {
    hide BlockRun;
  }

  lemma BlockerIsText(report: TurnResult)
    requires WellFormed(report) && report.status == IsBlocked
    ensures report.blockerMessage.Some? && NonBlank(report.blockerMessage.value)
  {
    TrimmedIsNonBlank(report.blockerMessage.value);
  }

  // ---------------------------------------------------------------- the service

  /** How a turn ends: the run needs none, what it reported was applied, or something threw. */
  datatype Round = Stopped | Went(reply: string) | Broke(message: string)

  function AsResult(round: Round): Result<string, string>
    requires !round.Stopped?
  {
    match round
    case Went(reply) => Ok(reply)
    case Broke(message) => Err(message)
  }

  function ReplyOf(result: Result<Option<string>, string>): Result<string, string> {
    match result
    case Ok(reply) => Ok(if reply.Some? then reply.value else "")
    case Err(message) => Err(message)
  }

  /** The provider, the recovery channel, the clock and everybody else's doings are arbitrary: others(n)
      is what happens during the n-th wait. */
  class WorkExecutionService {
    const db: Database
    const maxTurns: int
    const provider: Provider
    const channels: nat -> Channel
    const others: nat -> seq<Turn>
    const clock: nat -> Time
    var waits: nat
    var calls: nat

    constructor (db: Database, maxTurns: Option<int>, provider: Provider, channels: nat -> Channel,
                 others: nat -> seq<Turn>,
                 clock: nat -> Time)
      ensures this.db == db && this.maxTurns == if maxTurns.Some? then maxTurns.value else 1
      ensures this.provider == provider && this.channels == channels && this.others == others && this.clock == clock
      ensures waits == 0 && calls == 0
    {
      this.db := db;
      this.maxTurns := if maxTurns.Some? then maxTurns.value else 1;
      this.provider := provider;
      this.channels := channels;
      this.others := others;
      this.clock := clock;
      waits := 0;
      calls := 0;
    }

    function Now(): Setting
      reads this
    {
      Setting({}, {}, clock(waits), 0)
    }

    /** The last call of the provider threw this message. */
    ghost predicate ProviderThrew(message: string)
      reads this
    {
      calls > 0 && provider(calls - 1) == Threw(message)
    }

    /** Nobody else does anything. */
    ghost predicate Quiet() {
      forall n :: others(n) == []
    }

    /** Nobody else does anything, and it all happens at once. */
    ghost predicate Alone() {
      Quiet() && forall m, n :: clock(m) == clock(n)
    }

    /** No channel fails with the words by which a missing report is recognized. */
    ghost predicate ChannelsAreSilent() {
      forall n :: !MentionsMissingCall(ChannelText(channels(n)))
    }

    /** How a turn ends from the status before it, in progress or blocked: as the call says in which it ends. */
    ghost predicate RoundWent(k: nat, round: Round, before: RunStatus, status: RunStatus) {
      !round.Stopped? && WentAs(provider(k), before, false, AsResult(round), status)
    }

    ghost function ReplyAt(k: nat): string {
      if provider(k).Replied? then provider(k).reply else ""
    }

    /** A turn that only forgot to report gets a second one, which then counts in its place; no other turn does. */
    ghost predicate Repaired(report: Result<TurnResult, ParseError>, n: nat, m: nat, result: Result<Option<string>,
                             string>,
                             before: RunStatus, status: RunStatus) {
      if report == Err(NotCalled) then m == n + 1 && WentAs(provider(n), before, false, ReplyOf(result), status)
      else
        && m == n
        && match report
           case Err(error) => result == Err(ParseErrorText(error)) && status == before
           case Ok(value) => status == StatusOf(value.status, result.Ok?) && (result.Err? ==> value.status == IsBlocked)
    }

    /** What the others have made of the company by the end of the n-th wait. */
    ghost function Meanwhile(st: Store, r: Id, n: nat): Store {
      Interfered(st, r, others(n))
    }

    // -------------------------------------------------------------- waiting

    method Wait(r: Id, ghost except: set<Id>)
      requires InvExcept(db.store, except)
      modifies db, this`waits
      ensures InvExcept(db.store, except) && CompanyGoesOn(old(db.store), db.store)
              && RunSurvives(old(db.store), db.store, r)
      ensures NoLeaseWaits(old(db.store), r) ==> NoLeaseWaits(db.store, r)
      ensures Inv(old(db.store)) ==> Inv(db.store)
      ensures waits == old(waits) + 1 && db.store == Meanwhile(old(db.store), r, old(waits))
      ensures Quiet() ==> db.store == old(db.store)
    {
      hide InvExcept, CompanyGoesOn, NoLeaseWaits;
      if Inv(db.store) { InterferenceOnlyCancels(db.store, r, others(waits), {}); }
      InterferenceOnlyCancels(db.store, r, others(waits), except);
      db.store := Interfered(db.store, r, others(waits));
      waits := waits + 1;
    }

    method IsCanceled(r: Id, employee: string) returns (canceled: bool)
      requires Holds(db.store, r, employee)
      modifies db, this`waits
      ensures Holds(db.store, r, employee) && CompanyGoesOn(old(db.store), db.store)
              && RunSurvives(old(db.store), db.store, r)
      ensures canceled <==> StatusIn(db.store, r) == Canceled
      ensures waits == old(waits) + 1 && (Quiet() ==> db.store == old(db.store))
    {
      hide InvExcept, CompanyGoesOn, NoLeaseWaits, Meanwhile;
      Wait(r, {});
      GoingOnKeepsRun(old(db.store), db.store, r);
      canceled := StatusIn(db.store, r) == Canceled;
    }

    // -------------------------------------------------------------- calls of WorkService

    /** moveWorkRun, called by the run's own executor. */
    method Move(r: Id, input: MoveInput, ghost except: set<Id>) returns (result: Result<Id, string>)
      requires InvExcept(db.store, except) && input.run == r && r in db.store.work.runs && NonBlank(input.actor)
      requires Started(db.store, r) || NoLeaseWaits(db.store, r)
      requires input.status == Blocked ==> r in except
      modifies db, this`waits
      ensures InvExcept(db.store, except) && CompanyGoesOn(old(db.store), db.store) && r in db.store.work.runs
      ensures result.Ok? ==>
                StatusIn(db.store, r) == input.status && input.status in AllowedRunMoves(old(StatusIn(db.store, r)))
      ensures result.Err? ==> NonBlank(result.error) && OnlyCancels(old(StatusIn(db.store, r)), StatusIn(db.store, r))
      ensures result.Err? && Inv(old(db.store)) ==> Inv(db.store)
      ensures old(MoveError(db.store.work.runs[r], input)).None? && result.Err? ==> StatusIn(db.store, r) == Canceled
      ensures var outcome := MoveRun(Meanwhile(old(db.store), r, old(waits)).work, input, clock(waits));
              && db.store == Worked(Meanwhile(old(db.store), r, old(waits)), outcome).store
              && (result.Ok? <==> outcome.result.Ok?)
              && (result.Err? ==> result.error == ErrorText(outcome.result.error))
      ensures Quiet() ==> match old(MoveError(db.store.work.runs[r], input))
                          case None => result.Ok?
                          case Some(error) => result == Err(ErrorText(error))
      ensures Quiet() ==> Meanwhile(old(db.store), r, old(waits)) == old(db.store)
      ensures Quiet() && result.Err? ==> db.store == old(db.store)
      ensures Quiet() && HasOpenRequest(old(db.store), r) ==> HasOpenRequest(db.store, r)
      ensures waits == old(waits) + 1
    {
      hide InvExcept, CompanyGoesOn, NoLeaseWaits, MoveRun, NonBlank, Normalized, Meanwhile, ErrorText;
      ghost var st0 := db.store;
      Wait(r, except);
      GoingOnKeepsRun(st0, db.store, r);
      ghost var st1 := db.store;
      var outcome := MoveRun(db.store.work, input, Now().now);
      ExecutorMoves(db.store, input, Now(), except);
      MoveRunDecides(db.store.work, input, Now().now);
      db.store := db.store.(work := outcome.work);
      CompanyGoesOnTransitive(st0, st1, db.store);
      result := if outcome.result.Ok? then Ok(r) else Err(ErrorText(outcome.result.error));
    }

    /** recordWorkRunEvent with one of the executor's remarks. */
    method Record(r: Id, employee: string, remark: Remark, text: string)
      requires Holds(db.store, r, employee) && NonBlank(text)
      modifies db, this`waits
      ensures Holds(db.store, r, employee) && CompanyGoesOn(old(db.store), db.store)
              && RunSurvives(old(db.store), db.store, r)
      ensures var seen := Meanwhile(old(db.store), r, old(waits));
              db.store == Worked(seen, RecordEvent(seen.work, r, employee, RemarkName(remark), text,
                                                   clock(waits))).store
      ensures Quiet() ==> Meanwhile(old(db.store), r, old(waits)) == old(db.store)
      ensures Quiet() ==> StatusIn(db.store, r) == old(StatusIn(db.store, r))
      ensures Quiet() && HasOpenRequest(old(db.store), r) ==> HasOpenRequest(db.store, r)
    {
      hide InvExcept, CompanyGoesOn, NoLeaseWaits, RecordEvent, NonBlank, Meanwhile, RemarkName;
      ghost var st0 := db.store;
      Wait(r, {});
      GoingOnKeepsRun(st0, db.store, r);
      ghost var st1 := db.store;
      HolderIsNamed(st1, r, {});
      ExecutorRemarks(st1, r, employee, remark, text, Now(), {});
      db.store := db.store.(work := RecordEvent(db.store.work, r, employee, RemarkName(remark), text, Now().now).work);
      CompanyGoesOnTransitive(st0, st1, db.store);
    }

    // -------------------------------------------------------------- provider turns

    /** One provider turn.  Events that arrive after the run was canceled are dropped. */
    method Respond(r: Id, employee: string) returns (turn: Response)
      requires Holds(db.store, r, employee)
      modifies db, this
      ensures Holds(db.store, r, employee) && CompanyGoesOn(old(db.store), db.store)
              && RunSurvives(old(db.store), db.store, r)
      ensures calls == old(calls) + 1
      ensures turn.Threw? ==> ProviderThrew(turn.message)
      ensures match provider(old(calls))
              case Threw(message) => turn == Threw(message)
              case Replied(reply, events) =>
                turn.Replied? && turn.reply == reply && turn.events <= events
                && (StatusIn(db.store, r) != Canceled ==> turn.events == events)
      ensures old(StatusIn(db.store, r)) == Canceled && turn.Replied? ==> turn.events == []
      ensures Quiet() ==> db.store == old(db.store)
    {
      hide InvExcept, CompanyGoesOn, NoLeaseWaits, Meanwhile;
      ghost var st0 := db.store;
      Wait(r, {});
      GoingOnKeepsRun(st0, db.store, r);
      turn := provider(calls);
      calls := calls + 1;
      if turn.Replied? {
        var received: seq<TurnEvent> := [];
        var index := 0;
        while index < |turn.events|
          invariant 0 <= index <= |turn.events|
          invariant Holds(db.store, r, employee) && CompanyGoesOn(st0, db.store) && RunSurvives(st0, db.store, r)
          invariant Quiet() ==> db.store == st0
          invariant received <= turn.events[..index]
                    && (StatusIn(db.store, r) != Canceled ==> received == turn.events[..index])
          invariant StatusIn(st0, r) == Canceled ==> received == []
          invariant turn == provider(old(calls)) && calls == old(calls) + 1
        {
          ghost var before := db.store;
          var canceled := IsCanceled(r, employee);
          CompanyGoesOnTransitive(st0, before, db.store);
          if !canceled {
            received := received + [turn.events[index]];
          }
          index := index + 1;
        }
        turn := Replied(turn.reply, received);
      }
    }

    // -------------------------------------------------------------- applying results

    /** Blocks the run and opens its recovery channel; a run whose channel cannot be opened fails.  Left
        alone, this is the company's own operation. */
    method BlockWorkRun(r: Id, employee: string, reason: Option<string>, summary: Option<string>)
      returns (result: Result<Id, string>)
      requires Holds(db.store, r, employee)
      modifies db, this`waits
      ensures Holds(db.store, r, employee) && CompanyGoesOn(old(db.store), db.store)
      ensures Quiet() && HasOpenRequest(old(db.store), r) ==> HasOpenRequest(db.store, r)
      ensures result.Ok? ==> StatusIn(db.store, r) != InProgress
      ensures result.Err? ==> NonBlank(result.error) || StatusIn(db.store, r) != InProgress
      ensures old(StatusIn(db.store, r)) != InProgress ==> StatusIn(db.store, r) != InProgress
      ensures reason.Some? && NonBlank(reason.value) && old(StatusIn(db.store, r)) == InProgress ==>
                StatusIn(db.store, r) != InProgress
      ensures result.Ok? ==> StatusIn(db.store, r) in {Blocked, Canceled}
      ensures Quiet() && reason.Some? && NonBlank(reason.value)
              && old(StatusIn(db.store, r)) in {InProgress, Blocked} ==>
                if result.Ok? then StatusIn(db.store, r) == Blocked else StatusIn(db.store, r) == Failed
      ensures Quiet() && reason.Some? && NonBlank(reason.value) && old(StatusIn(db.store, r)) in {InProgress, Blocked}
              && ChannelsAreSilent() && result.Err? ==>
                !MentionsMissingCall(result.error)
      ensures Alone() ==>
                var effect := BlockRun(old(db.store), r, employee, summary, reason, channels(old(waits) + 2),
                                       clock(waits));
                          db.store == effect.store && (result.Ok? <==> effect.result.Ok?)
    {
      hide InvExcept, CompanyGoesOn, HasOpenRequest, NoLeaseWaits, MoveRun, OpenRecovery, NonBlank, Meanwhile,
           RecordEvent, RemarkName, BlockRun, Opened;
      ghost var st0 := db.store;
      HolderIsNamed(st0, r, {});
      InOrderExcept(st0, r);
      var moved := Move(r, MoveInput(r, employee, Blocked, summary, reason, None), {r});
      GoingOnKeepsRun(st0, db.store, r);
      ghost var st1 := db.store;
      BlockingInSteps(st0, r, employee, summary, reason, channels(waits + 1), clock(waits));
      ghost var now := clock(waits);
      if moved.Err? {
        return moved;
      }
      result := OpenChannel(r, employee);
      assert Alone() ==> now == clock(waits);
      CompanyGoesOnTransitive(st0, st1, db.store);
    }

    /** The second half of blocking a run: its channel opens, or it fails. */
    method OpenChannel(r: Id, employee: string) returns (result: Result<Id, string>)
      requires InvExcept(db.store, {r}) && r in db.store.work.runs && db.store.work.runs[r].assignee == employee
      requires StatusIn(db.store, r) == Blocked
      modifies db, this`waits
      ensures Holds(db.store, r, employee) && CompanyGoesOn(old(db.store), db.store)
      ensures Quiet() && HasOpenRequest(old(db.store), r) ==> HasOpenRequest(db.store, r)
      ensures StatusIn(db.store, r) in {Blocked, Failed, Canceled} && (result.Ok? ==> StatusIn(db.store, r) != Failed)
      ensures Quiet() ==> if result.Ok? then StatusIn(db.store, r) == Blocked else StatusIn(db.store, r) == Failed
      ensures Quiet() && ChannelsAreSilent() && result.Err? ==> !MentionsMissingCall(result.error)
      ensures Alone() ==> var effect := Opened(old(db.store), r, employee, channels(old(waits) + 1), clock(waits));
                          db.store == effect.store && (result.Ok? <==> effect.result.Ok?)
    {
      hide InvExcept, CompanyGoesOn, HasOpenRequest, NoLeaseWaits, MoveRun, OpenRecovery, NonBlank, Meanwhile,
           FailBlocked;
      ghost var st0 := db.store;
      Wait(r, {r});
      GoingOnKeepsRun(st0, db.store, r);
      ghost var st1 := db.store;
      var recovery := new BlockedRecovery(db);
      var failed := recovery.OpenRecoveryForBlockedRun(r, channels(waits), Now().now);
      ExecutorOpens(st1, r, channels(waits), Now().now);
      CompanyGoesOnTransitive(st0, st1, db.store);
      match failed
      case None => result := Ok(r);
      case Some(failure) =>
        ghost var st2, now := db.store, Now().now;
        if Quiet() {
          HolderIsNamed(st1, r, {r});
          OpeningFailsWith(st1, r, channels(waits), now);
          SameMemberMentionsNothing();
        }
        result := FailBlockedRun(r, employee, failure);
        CompanyGoesOnTransitive(st0, st2, db.store);
        assert Alone() ==> now == clock(waits);
    }

    /** The run whose channel could not be opened fails, unless it was canceled meanwhile. */
    method FailBlockedRun(r: Id, employee: string, failure: string) returns (result: Result<Id, string>)
      requires InvExcept(db.store, {r}) && r in db.store.work.runs && db.store.work.runs[r].assignee == employee
      requires StatusIn(db.store, r) in {Blocked, Canceled}
      modifies db, this`waits
      ensures Holds(db.store, r, employee) && CompanyGoesOn(old(db.store), db.store)
              && StatusIn(db.store, r) in {Failed, Canceled}
      ensures Quiet() && HasOpenRequest(old(db.store), r) ==> HasOpenRequest(db.store, r)
      ensures result.Err? && (Quiet() && old(StatusIn(db.store, r)) == Blocked ==>
                                result == Err(failure) && StatusIn(db.store, r) == Failed)
      ensures Alone() ==> db.store == FailBlocked(old(db.store), r, employee, failure, clock(waits)).store
    {
      hide InvExcept, CompanyGoesOn, HasOpenRequest, NoLeaseWaits, MoveRun, NonBlank, Meanwhile, RecordEvent,
           RemarkName;
      HolderIsNamed(db.store, r, {r});
      var failing := GivingUp(r, employee, failure);
      assert Normalized(failing.reason).Some? by { FailureReasonIsText(failure); }
      assert StatusIn(db.store, r) == Blocked ==> MoveError(db.store.work.runs[r], failing).None?;
      var failed := Move(r, failing, {r});
      GoingOnKeepsRun(old(db.store), db.store, r);
      NotBlockedIsInOrder(db.store, r);
      result := if failed.Err? then failed else Err(failure);
    }

    /** Progress resumes a blocked run, and is a remark on any other. */
    method ApplyProgress(r: Id, employee: string, report: TurnResult) returns (result: Result<Id, string>)
      requires Holds(db.store, r, employee) && WellFormed(report) && report.status == StillInProgress
      modifies db, this`waits
      ensures Holds(db.store, r, employee) && CompanyGoesOn(old(db.store), db.store)
      ensures Quiet() && HasOpenRequest(old(db.store), r) ==> HasOpenRequest(db.store, r)
      ensures result.Ok? ==> Reported(StillInProgress, old(StatusIn(db.store, r)), StatusIn(db.store, r))
      ensures result.Err? && old(StatusIn(db.store, r)) != InProgress ==> StatusIn(db.store, r) != InProgress
      ensures result.Err? ==> NonBlank(result.error) && old(StatusIn(db.store, r)) == Blocked
      ensures Alone() ==> var op := OpFor(old(db.store), report, r, employee, Works);
                          db.store == Step(old(db.store), op, Setting({}, {}, clock(waits), 0))
      ensures Quiet() && old(StatusIn(db.store, r)) in {InProgress, Blocked} ==>
                result.Ok? && StatusIn(db.store, r) == InProgress
    {
      hide InvExcept, CompanyGoesOn, HasOpenRequest, NoLeaseWaits, NonBlank, Meanwhile, MoveRun, RecordEvent,
           RemarkName, Step, MoveError, WellFormed;
      ghost var st0 := db.store;
      HolderIsNamed(st0, r, {});
      Wait(r, {});
      GoingOnKeepsRun(st0, db.store, r);
      ghost var st1 := db.store;
      if StatusIn(db.store, r) == Blocked {
        WellFormedResultsApply(report, st1.work.runs[r], r, employee);
        result := Move(r, MoveFor(report, r, employee), {});
        GoingOnKeepsRun(st1, db.store, r);
        MoveIsAStep(st1, MoveFor(report, r, employee), Setting({}, {}, clock(waits), 0));
      } else {
        var text := OrElse(report.summary, Some("WorkRun is still in progress.")).value;
        assert NonBlank(text) by { ProgressIsText(report); }
        Record(r, employee, Progressed, text);
        RemarkIsAStep(st1, r, employee, Progressed, text, clock(waits));
        result := Ok(r);
      }
      CompanyGoesOnTransitive(st0, st1, db.store);
    }

    /** Applies what a turn has reported.  Left alone, that is the company's own operation. */
    method ApplyWorkRunResult(r: Id, employee: string, report: TurnResult) returns (result: Result<Id, string>)
      requires Holds(db.store, r, employee) && WellFormed(report)
      modifies db, this`waits
      ensures Holds(db.store, r, employee) && CompanyGoesOn(old(db.store), db.store)
      ensures Quiet() && HasOpenRequest(old(db.store), r) ==> HasOpenRequest(db.store, r)
      ensures result.Ok? ==> Reported(report.status, old(StatusIn(db.store, r)), StatusIn(db.store, r))
      ensures result.Err? && old(StatusIn(db.store, r)) != InProgress ==> StatusIn(db.store, r) != InProgress
      ensures result.Err? ==> NonBlank(result.error) || StatusIn(db.store, r) != InProgress
      ensures Alone() ==> var op := OpFor(old(db.store), report, r, employee, channels(old(waits) + 2));
                          db.store == Step(old(db.store), op, Setting({}, {}, clock(waits), 0))
      ensures Alone() && old(StatusIn(db.store, r)) in {InProgress, Blocked} ==>
                && old(db.store).work.runs[r].task in old(db.store).work.tasks
                && ReportIsApplied(old(db.store), db.store, report, r, employee, channels(old(waits) + 2), clock(waits))
      ensures Quiet() && old(StatusIn(db.store, r)) in {InProgress, Blocked} && report.status == StillInProgress ==>
                result.Ok? && StatusIn(db.store, r) == InProgress
      ensures Quiet() && old(StatusIn(db.store, r)) in {InProgress, Blocked} ==>
                StatusIn(db.store, r) == StatusOf(report.status, result.Ok?)
      ensures Quiet() && old(StatusIn(db.store, r)) in {InProgress, Blocked} && result.Err? ==>
                report.status == IsBlocked && (ChannelsAreSilent() ==> !MentionsMissingCall(result.error))
    {
      hide InvExcept, CompanyGoesOn, HasOpenRequest, NoLeaseWaits, NonBlank, Meanwhile, MoveRun, Step, MoveError,
           BlockRun, MentionsMissingCall, WellFormed, ReportIsApplied, ChannelOpens;
      ghost var st0 := db.store;
      HolderIsNamed(st0, r, {});
      if StatusIn(st0, r) in {InProgress, Blocked} && report.status != StillInProgress {
        WellFormedResultsApply(report, st0.work.runs[r], r, employee);
      }
      if report.status == IsBlocked {
        BlockerIsText(report);
        result := BlockWorkRun(r, employee, report.blockerMessage, OrElse(report.summary, report.blockerMessage));
        BlockIsAStep(st0, r, employee, OrElse(report.summary, report.blockerMessage), report.blockerMessage,
                     channels(old(waits) + 2), clock(waits));
      } else if report.status == StillInProgress {
        result := ApplyProgress(r, employee, report);
      } else {
        result := Move(r, MoveFor(report, r, employee), {});
        GoingOnKeepsRun(st0, db.store, r);
        MoveIsAStep(st0, MoveFor(report, r, employee), Setting({}, {}, clock(waits), 0));
      }
      if Alone() && StatusIn(st0, r) in {InProgress, Blocked} {
        ReportsMean(st0, report, r, employee, channels(old(waits) + 2), clock(waits));
      }
    }

    /** Applies what the events report; a run that was canceled meanwhile takes no more results. */
    method ApplyFinalToolResult(r: Id, employee: string, events: seq<TurnEvent>) returns (result: Result<Id, string>)
      requires Holds(db.store, r, employee)
      modifies db, this`waits
      ensures Holds(db.store, r, employee) && CompanyGoesOn(old(db.store), db.store)
      ensures Quiet() && HasOpenRequest(old(db.store), r) ==> HasOpenRequest(db.store, r)
      ensures result.Err? && old(StatusIn(db.store, r)) != InProgress ==> StatusIn(db.store, r) != InProgress
      ensures result.Err? ==> NonBlank(result.error) || StatusIn(db.store, r) != InProgress
      ensures result.Ok? ==> StatusIn(db.store, r) == Canceled ||
                             (Parse(events).Ok? && Reported(Parse(events).value.status, old(StatusIn(db.store, r)),
                                                            StatusIn(db.store, r)))
      ensures Parse(events).Err? ==> OnlyCancels(old(StatusIn(db.store, r)), StatusIn(db.store, r)) &&
                                     (StatusIn(db.store, r) != Canceled ==>
                                        result == Err(ParseErrorText(Parse(events).error)))
      ensures Quiet() && Parse(events).Err? ==> db.store == old(db.store)
      ensures old(StatusIn(db.store, r)) == Canceled ==> result == Ok(r)
      ensures Alone() && Parse(events).Ok? && old(StatusIn(db.store, r)) != Canceled ==>
                var op := OpFor(old(db.store), Parse(events).value, r, employee, channels(old(waits) + 3));
                db.store == Step(old(db.store), op, Setting({}, {}, clock(waits), 0))
      ensures Quiet() && old(StatusIn(db.store, r)) in {InProgress, Blocked} && Parse(events).Ok? ==>
                && StatusIn(db.store, r) == StatusOf(Parse(events).value.status, result.Ok?)
                && (result.Err? ==>
                      Parse(events).value.status == IsBlocked
                      && (ChannelsAreSilent() ==> !MentionsMissingCall(result.error)))
    {
      hide InvExcept, CompanyGoesOn, HasOpenRequest, NonBlank, WellFormed, Parse, Meanwhile, MoveRun, RecordEvent,
           RemarkName, Step, OpFor, ParseErrorText,
           MentionsMissingCall;
      ghost var st0 := db.store;
      var canceled := IsCanceled(r, employee);
      if canceled {
        return Ok(r);
      }
      ghost var st1 := db.store;
      var report := WorkRunResultFromProcessEvents(events);
      match report
      case Err(error) => result := Err(ParseErrorText(error));
      case Ok(value) =>
        ParsedIsWellFormed(events);
        result := ApplyWorkRunResult(r, employee, value);
        CompanyGoesOnTransitive(st0, st1, db.store);
    }

    /** One more turn is granted to a provider that forgot to report; the reply of that turn comes back. */
    method ApplyFinalToolResultWithRepair(r: Id, employee: string, events: seq<TurnEvent>)
      returns (result: Result<Option<string>, string>)
      requires Holds(db.store, r, employee)
      modifies db, this
      ensures Holds(db.store, r, employee) && CompanyGoesOn(old(db.store), db.store)
      ensures Quiet() && HasOpenRequest(old(db.store), r) ==> HasOpenRequest(db.store, r)
      ensures old(calls) <= calls <= old(calls) + 1
      ensures result.Err? && old(StatusIn(db.store, r)) != InProgress ==> StatusIn(db.store, r) != InProgress
      ensures result.Err? ==>
                NonBlank(result.error) || StatusIn(db.store, r) != InProgress || ProviderThrew(result.error)
      ensures result.Ok? && calls == old(calls) ==> result.value == None
      ensures result.Ok? && calls > old(calls) ==>
                provider(old(calls)).Replied? && result.value == Some(provider(old(calls)).reply)
      ensures Quiet() && ChannelsAreSilent() && old(StatusIn(db.store, r)) in {InProgress, Blocked} ==>
                Repaired(Parse(events), old(calls), calls, result, old(StatusIn(db.store, r)), StatusIn(db.store, r))
    {
      hide NoticeText, ParseErrorText;
      hide InvExcept, CompanyGoesOn, HasOpenRequest, NonBlank, MentionsMissingCall, Meanwhile, MoveRun, RecordEvent,
           RemarkName, Step, OpFor, Parse;
      MissingCallIsMentioned();
      if Parse(events).Err? && Parse(events).error != NotCalled { OtherErrorsMentionNothing(Parse(events).error); }
      ghost var st0 := db.store;
      var first := ApplyFinalToolResult(r, employee, events);
      if first.Ok? {
        return Ok(None);
      }
      if !MentionsMissingCall(first.error) {
        return Err(first.error);
      }
      ghost var st1 := db.store;
      Record(r, employee, ProtocolRepair, NoticeText(RepairRequested));
      ghost var st2 := db.store;
      CompanyGoesOnTransitive(st0, st1, st2);
      var turn := Respond(r, employee);
      ghost var st3 := db.store;
      CompanyGoesOnTransitive(st0, st2, st3);
      match turn
      case Threw(message) => result := Err(message);
      case Replied(reply, repairEvents) =>
        var second := ApplyFinalToolResult(r, employee, repairEvents);
        CompanyGoesOnTransitive(st0, st3, db.store);
        result := if second.Ok? then Ok(Some(reply)) else Err(second.error);
    }

    // -------------------------------------------------------------- the turn loop

    /** One round of the loop below: it stops at a run that is no longer in progress. */
    method AutoContinueOnce(r: Id, employee: string) returns (round: Round)
      requires Holds(db.store, r, employee)
      modifies db, this
      ensures Holds(db.store, r, employee) && CompanyGoesOn(old(db.store), db.store)
      ensures Quiet() && HasOpenRequest(old(db.store), r) ==> HasOpenRequest(db.store, r)
      ensures old(calls) <= calls <= old(calls) + 1
      ensures round.Stopped? ==> StatusIn(db.store, r) != InProgress
      ensures round.Broke? ==>
                NonBlank(round.message) || StatusIn(db.store, r) != InProgress || ProviderThrew(round.message)
      ensures round.Went? ==>
                calls == old(calls) + 1 && provider(old(calls)).Replied? && round.reply == provider(old(calls)).reply
      ensures round.Stopped? ==> calls == old(calls)
      ensures Quiet() && old(StatusIn(db.store, r)) == InProgress ==>
                RoundWent(old(calls), round, InProgress, StatusIn(db.store, r)) && calls == old(calls) + 1
      ensures Quiet() && old(StatusIn(db.store, r)) != InProgress ==> round.Stopped? && db.store == old(db.store)
    {
      hide NoticeText;
      hide InvExcept, CompanyGoesOn, HasOpenRequest, NonBlank, Meanwhile, MoveRun, RecordEvent, RemarkName, Parse,
           ParseErrorText, Step, OpFor, Reported, Worked;
      ghost var st0 := db.store;
      Wait(r, {});
      GoingOnKeepsRun(st0, db.store, r);
      HolderIsNamed(db.store, r, {});
      var task := db.store.work.tasks[db.store.work.runs[r].task];
      TrimIsEmptyIffBlank(task.acceptanceCriteria);
      if StatusIn(db.store, r) != InProgress || Trim(task.acceptanceCriteria) == "" {
        return Stopped;
      }
      ghost var st1 := db.store;
      Record(r, employee, AutoContinued, NoticeText(AutoContinuing));
      CompanyGoesOnTransitive(st0, st1, db.store);
      ghost var st2 := db.store;
      var response := Respond(r, employee);
      CompanyGoesOnTransitive(st0, st2, db.store);
      ghost var st3 := db.store;
      match response
      case Threw(message) => round := Broke(message);
      case Replied(text, events) =>
        var applied := ApplyFinalToolResult(r, employee, events);
        CompanyGoesOnTransitive(st0, st3, db.store);
        round := if applied.Ok? then Went(text) else Broke(applied.error);
    }

    /** A run that is still in progress when its turns are used up is blocked. */
    method BlockIfStillInProgress(r: Id, employee: string, reason: Notice, summary: Notice)
      returns (result: Result<Id, string>)
      requires Holds(db.store, r, employee)
      modifies db, this`waits
      ensures Holds(db.store, r, employee) && CompanyGoesOn(old(db.store), db.store)
      ensures Quiet() && HasOpenRequest(old(db.store), r) ==> HasOpenRequest(db.store, r)
      ensures StatusIn(db.store, r) != InProgress
      ensures Quiet() && old(StatusIn(db.store, r)) == InProgress ==>
                StatusIn(db.store, r) == StatusOf(IsBlocked, result.Ok?)
      ensures Alone() && old(StatusIn(db.store, r)) == InProgress ==>
                db.store == BlockRun(old(db.store), r, employee, Some(NoticeText(summary)), Some(NoticeText(reason)),
                                     channels(old(waits) + 3), clock(waits)).store
      ensures Quiet() && old(StatusIn(db.store, r)) != InProgress ==> result.Ok? && db.store == old(db.store)
    {
      hide NoticeText;
      hide InvExcept, CompanyGoesOn, HasOpenRequest, NonBlank, NoLeaseWaits, Meanwhile, MoveRun, RecordEvent,
           RemarkName, BlockRun;
      ghost var st0 := db.store;
      Wait(r, {});
      ghost var st1 := db.store;
      GoingOnKeepsRun(st0, st1, r);
      result := Ok(r);
      if StatusIn(db.store, r) == InProgress {
        result := BlockWorkRun(r, employee, Some(NoticeText(reason)), Some(NoticeText(summary)));
        CompanyGoesOnTransitive(st0, st1, db.store);
      }
    }

    method AutoContinueIfNeeded(r: Id, employee: string, firstReply: string) returns (result: Result<string, string>)
      requires Holds(db.store, r, employee)
      modifies db, this
      ensures Holds(db.store, r, employee) && CompanyGoesOn(old(db.store), db.store)
      ensures Quiet() && HasOpenRequest(old(db.store), r) ==> HasOpenRequest(db.store, r)
      ensures old(calls) <= calls && (maxTurns >= 1 ==> calls <= old(calls) + maxTurns - 1)
      ensures maxTurns <= 1 ==> result == Ok(firstReply) && db.store == old(db.store) && calls == old(calls)
      ensures result.Ok? && maxTurns >= 2 ==> StatusIn(db.store, r) != InProgress
      ensures result.Err? ==>
                NonBlank(result.error) || StatusIn(db.store, r) != InProgress || ProviderThrew(result.error)
      ensures Quiet() && maxTurns >= 2 && old(StatusIn(db.store, r)) == InProgress ==>
                && calls == ContinuationEnd(provider, old(calls), old(calls) + maxTurns - 1) + 1
                && WentAs(provider(calls - 1), InProgress, true, result, StatusIn(db.store, r))
    {
      hide NoticeText;
      hide InvExcept, CompanyGoesOn, HasOpenRequest, NonBlank, Meanwhile, Parse, BlockRun, WentAs, Progresses,
           Continued, ContinuationEnd;
      ghost var st0 := db.store;
      NothingGoesOn(st0);
      if maxTurns <= 1 {
        return Ok(firstReply);
      }
      var reply := firstReply;
      var turn := 1;
      ContinuationBegins(provider, calls, reply);
      while turn < maxTurns
        invariant 1 <= turn <= maxTurns && old(calls) <= calls <= old(calls) + turn - 1
        invariant Holds(db.store, r, employee) && CompanyGoesOn(st0, db.store)
        invariant Quiet() && HasOpenRequest(st0, r) ==> HasOpenRequest(db.store, r)
        invariant turn == 1 ==> db.store == st0 && calls == old(calls)
        invariant Quiet() && old(StatusIn(db.store, r)) == InProgress ==>
                    && calls == old(calls) + turn - 1
                    && Continued(provider, old(calls), calls, reply, StatusIn(db.store, r))
      {
        ghost var before := db.store;
        var round := AutoContinueOnce(r, employee);
        CompanyGoesOnTransitive(st0, before, db.store);
        if Quiet() && old(StatusIn(db.store, r)) == InProgress {
          match round
          case Stopped => ContinuationStops(provider, old(calls), old(calls) + maxTurns - 1, calls, reply,
                                            StatusIn(db.store, r));
          case Broke(message) =>
            ContinuationBreaks(provider, old(calls), old(calls) + maxTurns - 1, calls - 1, reply, message,
                               StatusIn(db.store, r));
          case Went(text) => ContinuesOn(provider, old(calls), calls - 1, reply, text, StatusIn(db.store, r));
        }
        match round {
          case Stopped => return Ok(reply);
          case Broke(message) => return Err(message);
          case Went(text) => reply := text;
        }
        turn := turn + 1;
      }
      ghost var st1 := db.store;
      var blocked := BlockIfStillInProgress(r, employee, BudgetExhausted, BudgetSummary);
      CompanyGoesOnTransitive(st0, st1, db.store);
      result := if blocked.Ok? then Ok(reply) else Err(blocked.error);
      if Quiet() && old(StatusIn(db.store, r)) == InProgress {
        if StatusIn(st1, r) == InProgress {
          ContinuationIsUsedUp(provider, old(calls), calls, reply, result, StatusIn(db.store, r));
        } else {
          ContinuationStops(provider, old(calls), calls, calls, reply, StatusIn(st1, r));
        }
      }
    }

    // -------------------------------------------------------------- startWorkRunExecution

    /** A run that is still in progress when its executor gives up fails with the error's message. */
    method FailActiveWorkRun(r: Id, employee: string, message: string) returns (result: Result<Id, string>)
      requires Holds(db.store, r, employee)
      modifies db, this`waits
      ensures Holds(db.store, r, employee) && CompanyGoesOn(old(db.store), db.store)
      ensures Quiet() && HasOpenRequest(old(db.store), r) ==> HasOpenRequest(db.store, r)
      ensures NonBlank(message) ==> StatusIn(db.store, r) != InProgress
      ensures old(StatusIn(db.store, r)) != InProgress ==> StatusIn(db.store, r) != InProgress
      ensures Quiet() && (old(StatusIn(db.store, r)) != InProgress || !NonBlank(message)) ==> db.store == old(db.store)
      ensures old(StatusIn(db.store, r)) != InProgress ==> result.Ok?
      ensures Quiet() && old(StatusIn(db.store, r)) == InProgress ==>
                if NonBlank(message) then result.Ok? && StatusIn(db.store, r) == Failed
                else result == Err(ErrorText(ReasonRequired))
      ensures Quiet() && old(StatusIn(db.store, r)) == InProgress && NonBlank(message) ==>
                ErrorIsKept(old(db.store), db.store, r, employee, message, clock(waits))
    {
      hide InvExcept, CompanyGoesOn, HasOpenRequest, NonBlank, Meanwhile, MoveRun, RecordEvent, RemarkName,
           ErrorIsKept, Normalized;
      ghost var st0 := db.store;
      Wait(r, {});
      GoingOnKeepsRun(st0, db.store, r);
      if StatusIn(db.store, r) != InProgress {
        return Ok(r);
      }
      ghost var st1 := db.store;
      HolderIsNamed(st1, r, {});
      result := Move(r, ErrorInput(r, employee, message), {});
      GoingOnKeepsRun(st1, db.store, r);
      CompanyGoesOnTransitive(st0, st1, db.store);
      if Quiet() && NonBlank(message) { ErrorsMean(st1, r, employee, message, clock(waits)); }
    }

    /** From a repaired turn to the first turn as a whole. */
    lemma FirstFollowsRepair(n: nat, m: nat, result: Result<Option<string>, string>, before: RunStatus,
                             status: RunStatus)
      requires n < m && provider(n).Replied? && Repaired(Parse(provider(n).events), n + 1, m, result, before, status)
      requires result.Ok? ==> result.value == if m == n + 1 then None else Some(ReplyAt(m - 1))
      ensures m == FirstEnd(provider, n) + 1
      ensures RoundWent(m - 1, if result.Err? then Broke(result.error) else Went(ReplyAt(m - 1)), before, status)
    {
      hide Parse, ParseErrorText, StatusOf;
    }

    /** The first turn with its repair: the run was canceled meanwhile, a result was applied, or something threw. */
    method FirstTurn(r: Id, employee: string) returns (round: Round)
      requires Holds(db.store, r, employee)
      modifies db, this
      ensures Holds(db.store, r, employee) && CompanyGoesOn(old(db.store), db.store)
      ensures Quiet() && HasOpenRequest(old(db.store), r) ==> HasOpenRequest(db.store, r)
      ensures old(calls) < calls <= old(calls) + 2
      ensures round.Stopped? ==> StatusIn(db.store, r) == Canceled
      ensures old(StatusIn(db.store, r)) == Canceled ==>
                calls == old(calls) + 1 && !round.Went? && (round.Stopped? <==> provider(old(calls)).Replied?)
      ensures round.Broke? && old(StatusIn(db.store, r)) != InProgress ==> StatusIn(db.store, r) != InProgress
      ensures round.Broke? ==>
                NonBlank(round.message) || StatusIn(db.store, r) != InProgress || ProviderThrew(round.message)
      ensures Quiet() && ChannelsAreSilent() && old(StatusIn(db.store, r)) in {InProgress, Blocked} ==>
                && calls == FirstEnd(provider, old(calls)) + 1
                && RoundWent(calls - 1, round, old(StatusIn(db.store, r)), StatusIn(db.store, r))
    {
      hide InvExcept, CompanyGoesOn, HasOpenRequest, NonBlank, Parse, ParseErrorText, MentionsMissingCall, Meanwhile,
           Repaired;
      ghost var st0 := db.store;
      var turn := Respond(r, employee);
      ghost var st1 := db.store;
      GoingOnKeepsRun(st0, st1, r);
      if turn.Threw? {
        return Broke(turn.message);
      }
      var canceled := IsCanceled(r, employee);
      ghost var st2 := db.store;
      CompanyGoesOnTransitive(st0, st1, st2);
      if canceled {
        return Stopped;
      }
      var repaired := ApplyFinalToolResultWithRepair(r, employee, turn.events);
      CompanyGoesOnTransitive(st0, st2, db.store);
      if Quiet() && ChannelsAreSilent() && StatusIn(st0, r) in {InProgress, Blocked} {
        FirstFollowsRepair(old(calls), calls, repaired, StatusIn(st0, r), StatusIn(db.store, r));
        hide RoundWent;
      }
      match repaired
      case Err(message) => round := Broke(message);
      case Ok(reply) => round := Went(if reply.Some? then reply.value else turn.reply);
    }

    /** The first turn and what follows it: the part of startWorkRunExecution whose errors are caught. */
    method RunTurns(r: Id, employee: string) returns (result: Result<string, string>)
      requires Holds(db.store, r, employee)
      modifies db, this
      ensures Holds(db.store, r, employee) && CompanyGoesOn(old(db.store), db.store)
      ensures Quiet() && HasOpenRequest(old(db.store), r) ==> HasOpenRequest(db.store, r)
      ensures old(calls) < calls <= old(calls) + (if maxTurns >= 1 then maxTurns else 1) + 1
      ensures result.Ok? && maxTurns >= 2 ==> StatusIn(db.store, r) != InProgress
      ensures result.Err? ==>
                NonBlank(result.error) || StatusIn(db.store, r) != InProgress || ProviderThrew(result.error)
      ensures old(StatusIn(db.store, r)) == Canceled ==> calls == old(calls) + 1 && (result.Err? || result == Ok(""))
      ensures Quiet() && ChannelsAreSilent() && old(StatusIn(db.store, r)) == InProgress ==>
                TurnsWent(provider, maxTurns, old(calls), calls, result, StatusIn(db.store, r))
    {
      hide InvExcept, CompanyGoesOn, HasOpenRequest, NonBlank, Parse, ParseErrorText, MentionsMissingCall, Meanwhile;
      ghost var st0 := db.store;
      var first := FirstTurn(r, employee);
      ghost var st1 := db.store;
      match first
      case Stopped => result := Ok("");
      case Broke(message) => result := Err(message);
      case Went(reply) =>
        result := AfterFirstTurn(r, employee, reply);
        CompanyGoesOnTransitive(st0, st1, db.store);
    }

    /** What follows the first turn, if the run is still in progress. */
    method AfterFirstTurn(r: Id, employee: string, reply: string) returns (result: Result<string, string>)
      requires Holds(db.store, r, employee)
      modifies db, this
      ensures Holds(db.store, r, employee) && CompanyGoesOn(old(db.store), db.store)
      ensures Quiet() && HasOpenRequest(old(db.store), r) ==> HasOpenRequest(db.store, r)
      ensures old(calls) <= calls <= old(calls) + (if maxTurns >= 1 then maxTurns - 1 else 0)
      ensures maxTurns <= 1 ==> result == Ok(reply)
      ensures old(StatusIn(db.store, r)) != InProgress || (result.Ok? && maxTurns >= 2) ==>
                StatusIn(db.store, r) != InProgress
      ensures result.Err? ==>
                NonBlank(result.error) || StatusIn(db.store, r) != InProgress || ProviderThrew(result.error)
      ensures Quiet() && (old(StatusIn(db.store, r)) != InProgress || maxTurns <= 1) ==>
                result == Ok(reply) && db.store == old(db.store) && calls == old(calls)
      ensures Quiet() && maxTurns >= 2 && old(StatusIn(db.store, r)) == InProgress ==>
                && calls == ContinuationEnd(provider, old(calls), old(calls) + maxTurns - 1) + 1
                && WentAs(provider(calls - 1), InProgress, true, result, StatusIn(db.store, r))
    {
      hide InvExcept, CompanyGoesOn, HasOpenRequest, NonBlank, Meanwhile, WentAs, ContinuationEnd;
      ghost var st0 := db.store;
      Wait(r, {});
      ghost var st1 := db.store;
      GoingOnKeepsRun(st0, st1, r);
      if StatusIn(db.store, r) != InProgress {
        return Ok(reply);
      }
      result := AutoContinueIfNeeded(r, employee, reply);
      CompanyGoesOnTransitive(st0, st1, db.store);
    }

    /** Starts the run if it is queued; its assignee alone may execute it. */
    method Prepare(r: Id, employee: string) returns (failure: Option<string>)
      requires Inv(db.store) && MayStart(db.store, r)
      modifies db, this`waits
      ensures Inv(db.store) && CompanyGoesOn(old(db.store), db.store)
      ensures failure.None? ==> Holds(db.store, r, employee)
      ensures old(r in db.store.work.runs) ==> r in db.store.work.runs
      ensures old(r in db.store.work.runs) && failure.Some? ==>
                OnlyCancels(old(db.store).work.runs[r].status, StatusIn(db.store, r))
      ensures failure.None? ==> StatusIn(db.store, r) != Queued
      ensures old(IsCanceledFor(db.store, r, employee)) ==> failure.None? && StatusIn(db.store, r) == Canceled
      ensures failure.None? && IsQueuedFor(Meanwhile(old(db.store), r, old(waits)), r, employee) ==>
                StatusIn(db.store, r) == InProgress
      ensures Quiet() && IsQueuedFor(old(db.store), r, employee) ==>
                failure.None? && StatusIn(db.store, r) == InProgress
                && db.store == Worked(old(db.store),
                                      MoveRun(old(db.store).work, StartInput(r, employee), clock(waits))).store
      ensures Quiet() && !IsQueuedFor(old(db.store), r, employee) ==>
                db.store == old(db.store)
                && (failure.None? <==> r in db.store.work.runs && db.store.work.runs[r].assignee == employee)
    {
      hide InvExcept, CompanyGoesOn, HasOpenRequest, NoLeaseWaits, Meanwhile, MoveRun, RecordEvent, RemarkName;
      ghost var st0 := db.store;
      if r !in st0.work.runs { FreshRunHasNoLease(st0, r); }
      Wait(r, {});
      ghost var st1 := db.store;
      if r in st0.work.runs { GoingOnKeepsRun(st0, st1, r); }
      if r !in db.store.work.runs || db.store.work.runs[r].task !in db.store.work.tasks {
        if r in db.store.work.runs { HolderIsNamed(st1, r, {}); }
        return Some("WorkRun not found.");
      }
      if db.store.work.runs[r].assignee != employee {
        return Some("WorkRun is assigned to another member.");
      }
      HolderIsNamed(st1, r, {});
      failure := None;
      if StatusIn(db.store, r) == Queued {
        var started := Move(r, StartInput(r, employee), {});
        CompanyGoesOnTransitive(st0, st1, db.store);
        GoingOnKeepsRun(st1, db.store, r);
        if started.Err? {
          failure := Some(started.error);
        }
      }
    }

    /** What becomes of an error: a canceled run swallows it, any other run still in progress fails first. */
    method FailAndRethrow(r: Id, employee: string, message: string) returns (outcome: Result<string, string>)
      requires Holds(db.store, r, employee)
      modifies db, this`waits
      ensures Holds(db.store, r, employee) && CompanyGoesOn(old(db.store), db.store)
      ensures Quiet() && HasOpenRequest(old(db.store), r) ==> HasOpenRequest(db.store, r)
      ensures NonBlank(message) || old(StatusIn(db.store, r)) != InProgress ==> StatusIn(db.store, r) != InProgress
      ensures outcome.Ok? ==> outcome == Ok("") && StatusIn(db.store, r) == Canceled
      ensures old(StatusIn(db.store, r)) == Canceled ==> outcome.Ok?
      ensures Quiet() && old(StatusIn(db.store, r)) in {InProgress, Failed} ==>
                if old(StatusIn(db.store, r)) == Failed || NonBlank(message) then
                  outcome == Err(message) && StatusIn(db.store, r) == Failed
                else outcome == Err(ErrorText(ReasonRequired)) && StatusIn(db.store, r) == InProgress
    {
      hide InvExcept, CompanyGoesOn, HasOpenRequest, NonBlank, ErrorText;
      ghost var st0 := db.store;
      var canceled := IsCanceled(r, employee);
      ghost var st1 := db.store;
      if canceled {
        return Ok("");
      }
      var failed := FailActiveWorkRun(r, employee, message);
      CompanyGoesOnTransitive(st0, st1, db.store);
      outcome := Err(if failed.Err? then failed.error else message);
    }

    /** The turns of a prepared run, and the failure of one whose turns threw. */
    method Execute(r: Id, employee: string) returns (outcome: Result<string, string>)
      requires Holds(db.store, r, employee)
      modifies db, this
      ensures Holds(db.store, r, employee) && CompanyGoesOn(old(db.store), db.store)
      ensures Quiet() && HasOpenRequest(old(db.store), r) ==> HasOpenRequest(db.store, r)
      ensures calls <= old(calls) + (if maxTurns >= 1 then maxTurns else 1) + 1
      ensures maxTurns >= 2 && StatusIn(db.store, r) == InProgress ==>
                outcome.Err? && calls > old(calls) && provider(calls - 1).Threw?
                && !NonBlank(provider(calls - 1).message)
      ensures old(StatusIn(db.store, r)) == Canceled ==> outcome == Ok("") && calls == old(calls) + 1
      ensures old(StatusIn(db.store, r)) == InProgress && Quiet() && ChannelsAreSilent() ==>
                ExecutionWent(provider, maxTurns, old(calls), calls, outcome, StatusIn(db.store, r))
    {
      hide InvExcept, CompanyGoesOn, HasOpenRequest, NonBlank, Meanwhile, TurnsWent, ExecutionWent, ErrorText;
      ghost var st0 := db.store;
      outcome := RunTurns(r, employee);
      ghost var st1, turns := db.store, outcome;
      TurnErrorsAreNoCancellations(provider, maxTurns, old(calls), calls, turns, StatusIn(st1, r));
      GoingOnKeepsRun(st0, st1, r);
      if outcome.Err? {
        outcome := FailAndRethrow(r, employee, outcome.error);
        CompanyGoesOnTransitive(st0, st1, db.store);
      }
      if old(StatusIn(db.store, r)) == InProgress && Quiet() && ChannelsAreSilent() {
        ExecutionFollowsTurns(provider, maxTurns, old(calls), calls, turns, StatusIn(st1, r), outcome,
                              StatusIn(db.store, r));
      }
    }

    /** Execution settles: with two turns or more, the only way to leave the run in progress is an error
        of the provider that has no message.  The provider is called at most maxTurns + 1 times, and a
        run that has ended stays exactly as it ended, whoever ended it and whenever. */
    method StartWorkRunExecution(r: Id, employee: string) returns (outcome: Result<string, string>)
      requires Inv(db.store) && MayStart(db.store, r)
      modifies db, this
      ensures Inv(db.store) && CompanyGoesOn(old(db.store), db.store)
      ensures calls <= old(calls) + (if maxTurns >= 1 then maxTurns else 1) + 1
      ensures old(IsQueuedFor(db.store, r, employee)) && maxTurns >= 2 ==>
                || StatusIn(db.store, r) != InProgress
                || (outcome.Err? && calls > old(calls) && provider(calls - 1).Threw?
                    && !NonBlank(provider(calls - 1).message))
      ensures old(IsCanceledFor(db.store, r, employee)) ==> outcome == Ok("") && calls == old(calls) + 1
      ensures old(IsQueuedFor(db.store, r, employee)) && Quiet() && ChannelsAreSilent() ==>
                && ExecutionWent(provider, maxTurns, old(calls), calls, outcome, StatusIn(db.store, r))
                && (StatusIn(db.store, r) == InProgress <==> IsAbandoned(provider, maxTurns, old(calls)))
    {
      hide InvExcept, CompanyGoesOn, HasOpenRequest, NonBlank, IsAbandoned, NoLeaseWaits, LatestIs, Meanwhile,
           ExecutionWent, MoveRun, Worked, StartInput;
      ghost var st0 := db.store;
      var failure := Prepare(r, employee);
      if failure.Some? {
        return Err(failure.value);
      }
      ghost var st1 := db.store;
      outcome := Execute(r, employee);
      CompanyGoesOnTransitive(st0, st1, db.store);
      if old(IsQueuedFor(db.store, r, employee)) && Quiet() && ChannelsAreSilent() {
        LeftInProgressExactly(provider, maxTurns, old(calls), calls, outcome, StatusIn(db.store, r));
      }
    }

    // -------------------------------------------------------------- continueWorkRunExecution

    /** The part of continueWorkRunExecution whose errors are caught. */
    method ResumeTurns(r: Id, employee: string) returns (result: Result<string, string>)
      requires Holds(db.store, r, employee)
      modifies db, this
      ensures Holds(db.store, r, employee) && CompanyGoesOn(old(db.store), db.store)
      ensures Quiet() && HasOpenRequest(old(db.store), r) ==> HasOpenRequest(db.store, r)
      ensures calls <= old(calls) + (if maxTurns >= 1 then maxTurns else 1) + 1
      ensures maxTurns <= 1 && old(StatusIn(db.store, r)) != InProgress ==> StatusIn(db.store, r) != InProgress
      ensures result.Ok? ==> StatusIn(db.store, r) != InProgress
      ensures old(StatusIn(db.store, r)) == Canceled ==> calls == old(calls) + 1 && (result.Err? || result == Ok(""))
      ensures Quiet() && ChannelsAreSilent() && old(StatusIn(db.store, r)) == Blocked ==>
                RecoveryWent(provider, maxTurns, old(calls), calls, result, StatusIn(db.store, r))
    {
      hide InvExcept, CompanyGoesOn, HasOpenRequest, NonBlank, Parse, ParseErrorText, MentionsMissingCall, Meanwhile;
      ghost var st0 := db.store;
      var first := FirstTurn(r, employee);
      ghost var st1 := db.store;
      match first
      case Stopped => result := Ok("");
      case Broke(message) => result := Err(message);
      case Went(reply) =>
        result := Stabilize(r, employee, reply);
        CompanyGoesOnTransitive(st0, st1, db.store);
    }

    /** What follows the first turn of a recovery: it does not return normally before the run is stable. */
    method Stabilize(r: Id, employee: string, reply: string) returns (result: Result<string, string>)
      requires Holds(db.store, r, employee)
      modifies db, this
      ensures Holds(db.store, r, employee) && CompanyGoesOn(old(db.store), db.store)
      ensures Quiet() && HasOpenRequest(old(db.store), r) ==> HasOpenRequest(db.store, r)
      ensures old(calls) <= calls <= old(calls) + (if maxTurns >= 1 then maxTurns - 1 else 0)
      ensures result.Ok? || maxTurns <= 1 || old(StatusIn(db.store, r)) != InProgress ==>
                StatusIn(db.store, r) != InProgress
      ensures Quiet() && old(StatusIn(db.store, r)) != InProgress ==>
                result == Ok(reply) && db.store == old(db.store) && calls == old(calls)
      ensures Quiet() && old(StatusIn(db.store, r)) == InProgress && maxTurns <= 1 ==>
                calls == old(calls) && StatusIn(db.store, r) == StatusOf(IsBlocked, result.Ok?)
                && (result.Ok? ==> result.value == reply)
      ensures Quiet() && maxTurns >= 2 && old(StatusIn(db.store, r)) == InProgress ==>
                && calls == ContinuationEnd(provider, old(calls), old(calls) + maxTurns - 1) + 1
                && WentAs(provider(calls - 1), InProgress, true, result, StatusIn(db.store, r))
    {
      hide InvExcept, CompanyGoesOn, HasOpenRequest, NonBlank, Parse, ParseErrorText, Meanwhile, BlockRun, NoticeText;
      ghost var st0 := db.store;
      Wait(r, {});
      ghost var st1 := db.store;
      GoingOnKeepsRun(st0, st1, r);
      if StatusIn(db.store, r) != InProgress {
        return Ok(reply);
      }
      result := AutoContinueIfNeeded(r, employee, reply);
      ghost var st2 := db.store;
      CompanyGoesOnTransitive(st0, st1, st2);
      if result.Ok? {
        var settled := BlockIfStillInProgress(r, employee, NotStable, NotStableSummary);
        CompanyGoesOnTransitive(st0, st2, db.store);
        if settled.Err? {
          result := Err(settled.error);
        }
      }
    }

    /** Resuming never returns normally with the run in progress, whatever maxTurns is, and with a budget of
        one turn it never leaves the run in progress at all.  Undisturbed, it leaves the run in progress exactly
        if it GetsStuck: the budget is at least two, the first turn (or its repair) reports progress, and of the
        later turns granted one throws or does not report properly, every turn before it reporting progress.
        Its callers resume blocked runs only. */
    method ContinueWorkRunExecution(r: Id, employee: string, participantMessage: string)
      returns (outcome: Result<string, string>)
      requires Inv(db.store) && (r in db.store.work.runs ==> StatusIn(db.store, r) != Queued)
      modifies db, this
      ensures Inv(db.store) && CompanyGoesOn(old(db.store), db.store)
      ensures calls <= old(calls) + (if maxTurns >= 1 then maxTurns else 1) + 1
      ensures old(r in db.store.work.runs) ==> r in db.store.work.runs
      ensures old(r in db.store.work.runs) && outcome.Ok? ==> StatusIn(db.store, r) != InProgress
      ensures maxTurns <= 1 && IsBlockedRun(old(db.store), r) ==> StatusIn(db.store, r) != InProgress
      ensures old(IsCanceledFor(db.store, r, employee)) && NonBlank(participantMessage) ==>
                outcome == Ok("") && calls == old(calls) + 1
      ensures Quiet() && ChannelsAreSilent() && IsBlockedFor(old(db.store), r, employee)
              && NonBlank(participantMessage) ==>
                && RecoveryWent(provider, maxTurns, old(calls), calls, outcome, StatusIn(db.store, r))
                && (StatusIn(db.store, r) == InProgress <==> GetsStuck(provider, maxTurns, old(calls)))
      ensures !NonBlank(participantMessage) ==> outcome.Err? && db.store == old(db.store)
      ensures Quiet() && HasOpenRequest(old(db.store), r) ==> HasOpenRequest(db.store, r)
    {
      hide InvExcept, CompanyGoesOn, HasOpenRequest, Meanwhile, MoveRun, RecordEvent, RemarkName, RecoveryWent,
           GetsStuck;
      ghost var st0 := db.store;
      NothingGoesOn(st0);
      TrimIsEmptyIffBlank(participantMessage);
      if Trim(participantMessage) == "" {
        return Err("participantMessage is required.");
      }
      if r !in db.store.work.runs || db.store.work.runs[r].task !in db.store.work.tasks {
        if r in db.store.work.runs { HolderIsNamed(st0, r, {}); }
        return Err("WorkRun not found.");
      }
      if db.store.work.runs[r].assignee != employee {
        return Err("WorkRun is assigned to another member.");
      }
      Wait(r, {});
      ghost var st1 := db.store;
      GoingOnKeepsRun(st0, st1, r);
      outcome := ResumeTurns(r, employee);
      ghost var st2 := db.store;
      CompanyGoesOnTransitive(st0, st1, st2);
      RecoveryErrorsAreNoCancellations(provider, maxTurns, old(calls), calls, outcome, StatusIn(st2, r));
      if RecoveryWent(provider, maxTurns, old(calls), calls, outcome, StatusIn(st2, r)) {
        StuckExactly(provider, maxTurns, old(calls), calls, outcome, StatusIn(st2, r));
      }
      GoingOnKeepsRun(st1, st2, r);
      if outcome.Err? {
        var canceled := IsCanceled(r, employee);
        CompanyGoesOnTransitive(st0, st2, db.store);
        if canceled {
          outcome := Ok("");
        }
      }
    }
  }

  lemma ProgressIsText(report: TurnResult)
    requires WellFormed(report)
    ensures NonBlank(OrElse(report.summary, Some("WorkRun is still in progress.")).value)
  {
    if report.summary.Some? {
      TrimmedIsNonBlank(report.summary.value);
    } else {
      assert !IsSpace("WorkRun is still in progress."[0]);
    }
  }

  // ---------------------------------------------------------------- runs that do not settle

  /** With any budget and nobody interfering, one provider error without a message leaves the run in
      progress for good: failing it needs a reason, and the error has none to give. */
  method BlankErrorLeavesTheRunInProgress(db: Database, r: Id, employee: string, maxTurns: int)
    returns (outcome: Result<string, string>)
    requires Inv(db.store) && MayStart(db.store, r) && IsQueuedFor(db.store, r, employee) && maxTurns >= 2
    modifies db
    ensures r in db.store.work.runs && StatusIn(db.store, r) == InProgress && outcome.Err?
  {
    hide InvExcept, CompanyGoesOn, HasOpenRequest, NoLeaseWaits, MentionsMissingCall;
    SameMemberMentionsNothing();
    var service := new WorkExecutionService(db, Some(maxTurns), _ => Threw(""), _ => Works, _ => [], _ => 0);
    outcome := service.StartWorkRunExecution(r, employee);
    GoingOnKeepsRun(old(db.store), db.store, r);
  }

  /** With a budget of one turn or less - one is the default - a provider that reports progress leaves the
      run in progress too. */
  method SmallBudgetLeavesTheRunInProgress(db: Database, r: Id, employee: string, maxTurns: Option<int>)
    returns (outcome: Result<string, string>)
    requires Inv(db.store) && MayStart(db.store, r) && IsQueuedFor(db.store, r, employee)
             && (maxTurns.Some? ==> maxTurns.value <= 1)
    modifies db
    ensures r in db.store.work.runs && StatusIn(db.store, r) == InProgress && outcome.Ok?
  {
    hide InvExcept, CompanyGoesOn, HasOpenRequest, NoLeaseWaits, Parse, CallEvent, MentionsMissingCall;
    var progress := TurnResult(StillInProgress, None, None, None);
    ReportsAreReadBack(progress, []);
    assert [] + [CallEvent(progress)] == [CallEvent(progress)];
    SameMemberMentionsNothing();
    var service := new WorkExecutionService(db, maxTurns, _ => Replied("", [CallEvent(progress)]), _ => Works, _ => [],
                                            _ => 0);
    outcome := service.StartWorkRunExecution(r, employee);
    GoingOnKeepsRun(old(db.store), db.store, r);
  }

  /** A recovery reply is to leave the run in a stable state.  With any budget of two turns or more it need
      not: the provider reports progress, fails in the next turn, and the run stays in progress. */
  method RecoveryLeavesTheRunInProgress(db: Database, r: Id, employee: string, maxTurns: int)
    returns (outcome: Result<string, string>)
    requires Inv(db.store) && IsBlockedFor(db.store, r, employee) && maxTurns >= 2
    modifies db
    ensures r in db.store.work.runs && StatusIn(db.store, r) == InProgress && outcome.Err?
  {
    hide InvExcept, CompanyGoesOn, HasOpenRequest, Parse, CallEvent, MentionsMissingCall;
    var progress := TurnResult(StillInProgress, None, None, None);
    ReportsAreReadBack(progress, []);
    assert [] + [CallEvent(progress)] == [CallEvent(progress)];
    assert NonBlank("go on") by { assert !IsSpace("go on"[0]); }
    SameMemberMentionsNothing();
    var service := new WorkExecutionService(db, Some(maxTurns),
                                            n => if n == 0 then Replied("", [CallEvent(progress)])
                                                 else Threw("provider is down"),
                                            _ => Works, _ => [], _ => 0);
    assert Progresses(service.provider, 0) && !TurnAt(service.provider, 1).Reports?;
    outcome := service.ContinueWorkRunExecution(r, employee, "go on");
  }
}
