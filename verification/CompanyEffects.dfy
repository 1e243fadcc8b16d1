/** What the operations on leases, recovery requests and dispatch do, field by field, in terms of their arguments
    and of the records they find; and exactly when they are accepted. */
module CompanyEffects {
  import opened Prelude
  import opened WorkDomain
  import opened WorkOperations
  import opened WorkInvariants
  import opened BooksKept
  import opened RunLog
  import opened WorkEffects
  import opened Company
  import opened CompanyInvariants
  import opened CompanyKept
  import opened CompanyHistory
  import opened DispatchOrder

  // ---------------------------------------------------------------- what the callers owe

  /** A named actor for a due run, a cancellation and an executor's moves, which are of runs it has started; and
      nothing for any other operation. */
  lemma CallersOweExactly(st: Store, op: Op)
    ensures Proper(st, op) <==>
              match op
              case CreateDueRunOp(_, actor) => NonBlank(actor)
              case CancelRunOp(_, actor, _, _) => NonBlank(actor)
              case MoveRunOp(input) =>
                && NonBlank(input.actor) && input.status != Blocked
                && input.run in st.work.runs && st.work.runs[input.run].status != Queued
              case BlockRunOp(r, actor, _, _, _) =>
                NonBlank(actor) && r in st.work.runs && st.work.runs[r].status != Queued
              case _ => true
  {
    hide NonBlank;
  }

  // ---------------------------------------------------------------- recovery requests

  /** Who is asked about a blocked run: the requester of its task, or else the task's creator. */
  function AskedMember(task: Task): string {
    if task.origin.requester.Some? then task.origin.requester.value else task.origin.createdBy
  }

  /** The channel of a run opens if it is open already, or if it works and has somebody to ask. */
  predicate ChannelOpens(st: Store, r: Id, channel: Channel)
    requires r in st.work.runs && st.work.runs[r].task in st.work.tasks
  {
    && !channel.Lost?
    && (|| (r in st.requests && st.requests[r].status == Open)
        || (channel.Works?
            && (r in st.requests || AskedMember(st.work.tasks[st.work.runs[r].task]) != st.work.runs[r].assignee)))
  }

  /** The request of a blocked run: left as it is while open, opened again if it was closed, or made anew,
      about the run and between its assignee and the member who is asked. */
  predicate RequestIsOpened(st: Store, st': Store, r: Id, now: Time)
    requires r in st.work.runs && st.work.runs[r].task in st.work.tasks
  {
    && r in st'.requests
    && var run, request := st.work.runs[r], st'.requests[r];
       if r in st.requests then
         && st'.work == st.work
         && st' == st.(requests := st.requests[r := request])
         && if st.requests[r].status == Open then request == st.requests[r]
            else request == st.requests[r].(status := Open, updatedAt := now, resolvedAt := None, canceledAt := None)
       else
         && st' == st.(work := st.work.(next := st.work.next + 2), requests := st.requests[r := request])
         && request.task == run.task && request.assignee == run.assignee
         && request.requester == AskedMember(st.work.tasks[run.task]) && request.requester != request.assignee
         && request.conversation == st.work.next && request.id == st.work.next + 1 && request.status == Open
         && request.createdAt == request.updatedAt == now && request.resolvedAt.None? && request.canceledAt.None?
  }

  /** Why a channel has not been opened. */
  function ChannelFailure(st: Store, r: Id, channel: Channel): string
    requires r in st.work.runs && st.work.runs[r].task in st.work.tasks
  {
    if channel.Lost? then channel.message
    else if r !in st.requests && AskedMember(st.work.tasks[st.work.runs[r].task]) == st.work.runs[r].assignee then
      "Blocked WorkRun requester matches assignee."
    else if channel.Works? then "" else channel.message
  }

  lemma OpenRecoveryMeans(st: Store, r: Id, channel: Channel, now: Time)
    requires r in st.work.runs && st.work.runs[r].status == Blocked && st.work.runs[r].task in st.work.tasks
    ensures var opening := OpenRecovery(st, r, channel, now);
            && (opening.failure.None? <==> ChannelOpens(st, r, channel))
            && (opening.failure.None? ==> RequestIsOpened(st, opening.store, r, now))
            && (opening.failure.Some? ==>
                  && opening.failure == Some(ChannelFailure(st, r, channel))
                  && (opening.store == st || (channel.FailsLate? && RequestIsOpened(st, opening.store, r, now))))
  {
  }

  /** At the end of a resumed turn an open run's request stays, a canceled run's is canceled, any other resolved. */
  lemma SettleRequestMeans(st: Store, r: Id, now: Time)
    requires r in st.work.runs && r in st.requests
    ensures var st', request := SettleRequest(st, r, now), st.requests[r];
            match st.work.runs[r].status
            case Blocked => st' == st
            case Canceled =>
              st' == st.(requests := st.requests[r := request.(status := RequestCanceled, updatedAt := now,
                                                               canceledAt := Some(now))])
            case _ =>
              st' == st.(requests := st.requests[r := request.(status := Resolved, updatedAt := now,
                                                               resolvedAt := Some(now))])
  {
  }

  // ---------------------------------------------------------------- blocking

  lemma BlockRunMeans(st: Store, r: Id, actor: string, summary: Option<string>, reason: string, channel: Channel,
                      s: Setting)
    requires Inv(st) && NonBlank(actor) && NonBlank(reason)
    requires r in st.work.runs && st.work.runs[r].status in {InProgress, Blocked}
    requires st.work.runs[r].task in st.work.tasks
    ensures var blocked := BlockRun(st, r, actor, summary, Some(reason), channel, s.now);
            var w', a := blocked.store.work, st.work.runs[r];
            && (blocked.result.Ok? <==> ChannelOpens(st, r, channel))
            && r in w'.runs && w'.runs == st.work.runs[r := w'.runs[r]] && w'.runs[r].assignee == a.assignee
            && w'.runs[r].blockedReason == Normalized(Some(reason))
            && st.work.next !in st.work.events && st.work.next in w'.events
            && (forall e :: e in st.work.events ==> e in w'.events && w'.events[e] == st.work.events[e])
            && MoveIsLogged(w'.events[st.work.next], MoveInput(r, actor, Blocked, summary, Some(reason), None), s.now)
            && if blocked.result.Ok? then
                 && w'.runs[r].status == Blocked && HasOpenRequest(blocked.store, r)
                 && w'.events == st.work.events[st.work.next := w'.events[st.work.next]]
               else
                 && w'.runs[r].status == Failed && w'.runs[r].completedAt == Some(s.now)
                 && w'.runs[r].failedReason
                    == Normalized(Some("Blocked recovery channel failed: " + ChannelFailure(st, r, channel)))
  {
    hide InvExcept, BooksOk, MoveRun, OpenRecovery, NonBlank, Normalized, ScheduleHasSettled, EndsWork;
    hide RequestIsOpened, ChannelOpens, ChannelFailure, FailBlocked, LimitReached, IsOneShotTask, MoveIsLogged;
    var input := MoveInput(r, actor, Blocked, summary, Some(reason), None);
    BooksOfCompany(st, {});
    MoveRunIsAcceptedExactly(st.work, input, s.now);
    MoveRunMeans(st.work, input, s.now);
    var blocked := st.(work := MoveRun(st.work, input, s.now).work);
    OpenRecoveryMeans(blocked, r, channel, s.now);
    ChannelsAreTheSame(st, blocked, r, channel);
    BlockedBooks(st, input, channel, s, {});
    var opening := OpenRecovery(blocked, r, channel, s.now);
    OpenRecoveryShape(blocked, r, channel, s.now);
    OpenedIsOpen(blocked, opening.store, r, s.now);
    if opening.failure.Some? { GivenUpMeans(opening.store, r, actor, opening.failure.value, s.now); }
  }

  lemma ChannelsAreTheSame(st: Store, st': Store, r: Id, channel: Channel)
    requires r in st.work.runs && st.work.runs[r].task in st.work.tasks && st'.work.tasks == st.work.tasks
    requires st'.requests == st.requests && r in st'.work.runs && st'.work.runs[r].task == st.work.runs[r].task
    requires st'.work.runs[r].assignee == st.work.runs[r].assignee
    ensures ChannelOpens(st', r, channel) <==> ChannelOpens(st, r, channel)
    ensures ChannelFailure(st', r, channel) == ChannelFailure(st, r, channel)
  {
  }

  lemma OpenedIsOpen(st: Store, st': Store, r: Id, now: Time)
    requires r in st.work.runs && st.work.runs[r].task in st.work.tasks
    ensures RequestIsOpened(st, st', r, now) ==> HasOpenRequest(st', r)
  {
  }

  lemma GivenUpMeans(st: Store, r: Id, actor: string, failure: string, now: Time)
    requires BooksOk(st.work) && NonBlank(actor) && r in st.work.runs && st.work.runs[r].status == Blocked
    ensures var w' := FailBlocked(st, r, actor, failure, now).store.work;
            && r in w'.runs && w'.runs == st.work.runs[r := w'.runs[r]] && w'.runs[r].status == Failed
            && w'.runs[r].failedReason == Normalized(Some("Blocked recovery channel failed: " + failure))
            && w'.runs[r].blockedReason == st.work.runs[r].blockedReason && w'.runs[r].completedAt == Some(now)
            && w'.runs[r].assignee == st.work.runs[r].assignee
            && forall e :: e in st.work.events ==> e in w'.events && w'.events[e] == st.work.events[e]
  {
    hide BooksOk, MoveRun, NonBlank, Normalized, TaskHasSettled, ScheduleHasSettled, EndsWork, MoveIsLogged;
    FailureReasonIsText(failure);
    MoveRunIsAcceptedExactly(st.work, GivingUp(r, actor, failure), now);
    MoveRunMeans(st.work, GivingUp(r, actor, failure), now);
  }

  // ---------------------------------------------------------------- leases

  predicate IsNewLease(lease: Lease, r: Id, assignee: string, createdBy: string, retryOf: Option<Id>,
                       source: LeaseSource, s: Setting) {
    && lease.run == r && lease.assignee == assignee && lease.status == Pending && lease.dispatchedAt == s.now
    && lease.expiresAt == s.now + s.leaseTtl && lease.retryOf == retryOf && lease.createdBy == createdBy
    && lease.source == source && lease.acknowledgedAt.None? && lease.failedAt.None? && lease.canceledAt.None?
    && lease.failureReason.None?
  }

  /** Only the latest lease of a run is ever taken or given up, only while it is pending, and taken only by its
      assignee; and none is added while it is pending. */
  lemma OnlyTheLatestLeaseMoves(st: Store, r: Id, assignee: string, lease: Lease, reason: string, now: Time)
    requires reason != ""
    ensures var l := Latest(st, r);
            && AcknowledgeLease(st, r, assignee, now)
               == (if l.None? || st.leases[l.value].status != Pending || st.leases[l.value].assignee != assignee then st
                   else st.(leases := st.leases[l.value := st.leases[l.value].(status := Acknowledged,
                                                                               acknowledgedAt := Some(now))]))
            && FailPendingLease(st, r, reason, now)
               == (if l.None? || st.leases[l.value].status != Pending then st
                   else st.(leases := st.leases[l.value := st.leases[l.value].(status := LeaseFailed,
                                                                               failedAt := Some(now),
                                                                               failureReason := Some(reason))]))
    ensures var l := Latest(st, lease.run);
            if l.Some? && st.leases[l.value].status == Pending then
              CreateLease(st, lease) == Effect(st, Err(LeaseIsPending))
            else
              CreateLease(st, lease)
              == Effect(Store(st.work.(next := st.work.next + 1), st.leases[st.work.next := lease], st.requests),
                        Ok(st.work.next))
  {
    hide Latest;
  }

  /** A queued run whose latest lease has failed gets a new one that answers it; nothing else may be retried. */
  lemma RetryDispatchMeans(st: Store, r: Id, actor: string, s: Setting)
    requires Inv(st)
    ensures var retried, l := RetryDispatch(st, r, actor, s), Latest(st, r);
            && (retried.result.Ok? <==>
                  && r in st.work.runs && st.work.runs[r].status == Queued
                  && l.Some? && st.leases[l.value].status == LeaseFailed)
            && (retried.result.Err? ==> retried.store == st)
            && (retried.result.Ok? ==>
                  && st.work.next !in st.leases && retried.result.value == st.work.next
                  && st.work.next in retried.store.leases
                  && retried.store == Store(st.work.(next := st.work.next + 1),
                                            st.leases[st.work.next := retried.store.leases[st.work.next]], st.requests)
                  && IsNewLease(retried.store.leases[st.work.next], r, st.work.runs[r].assignee, actor, l,
                                FromRunAction, s))
  {
    hide InvExcept, Latest;
    LeaseIdIsFresh(st, {});
    if Latest(st, r).Some? { LeaseOfRun(st, Latest(st, r).value); }
  }

  lemma LeaseOfRun(st: Store, l: Id)
    requires Inv(st) && l in st.leases
    ensures st.leases[l].run in st.work.runs && st.leases[l].assignee == st.work.runs[st.leases[l].run].assignee
  {
    hide BooksOk, RequestsOk, BlockedReachable;
    assert LeaseFits(st, l);
  }

  /** Exactly the pending leases whose time has come are given up, for the fixed reason. */
  lemma ExpireLeasesMeans(st: Store, now: Time)
    ensures var st' := ExpireLeases(st, now);
            && st' == st.(leases := st'.leases) && st'.leases.Keys == st.leases.Keys
            && forall l :: l in st.leases ==>
                             var lease := st.leases[l];
                             st'.leases[l]
                             == if lease.status == Pending && lease.expiresAt <= now then
                                  lease.(status := LeaseFailed, failedAt := Some(now), failureReason := Some(EXPIRED))
                                else lease
  {
  }

  // ---------------------------------------------------------------- cancellation

  /** Of the given runs the latest leases, if pending or acknowledged, and the open requests are canceled. */
  ghost predicate HasCleared(st: Store, st': Store, ids: set<Id>, reason: string, now: Time) {
    && st'.leases.Keys == st.leases.Keys && st'.requests.Keys == st.requests.Keys
    && (forall l :: l in st.leases ==>
                      var lease := st.leases[l];
                      st'.leases[l]
                      == if lease.run in ids && Latest(st, lease.run) == Some(l)
                            && lease.status in {Pending, Acknowledged} then
                           lease.(status := LeaseCanceled, canceledAt := Some(now),
                                  failureReason := if reason == "" then lease.failureReason else Some(reason))
                         else lease)
    && (forall r :: r in st.requests ==>
                      st'.requests[r]
                      == if r in ids && st.requests[r].status == Open then
                           st.requests[r].(status := RequestCanceled, updatedAt := now, canceledAt := Some(now))
                         else st.requests[r])
  }

  lemma CleanupMeans(st: Store, w: Tables, ids: set<Id>, reason: string, now: Time)
    requires (forall l :: l in st.leases ==> l < st.work.next) && st.work.next <= w.next
    ensures HasCleared(st, Cleanup(st.(work := w), ids, reason, now), ids, reason, now)
    ensures Cleanup(st.(work := w), ids, reason, now).work == w
  {
    hide Latest;
    CleanupCommutes(st, w, ids, reason, now);
  }

  function RunsToClear(w: Tables, t: Id): set<Id> {
    set r | r in w.runs && w.runs[r].task == t && w.runs[r].status in {Queued, InProgress, Blocked, Canceled}
  }

  /** The open and the canceled runs of a task lose what hangs on them together with the task. */
  lemma CancelWorkTaskMeans(st: Store, t: Id, actor: string, reason: Option<string>, now: Time)
    requires Inv(st)
    ensures var canceled := CancelWorkTask(st, t, actor, reason, now);
            && (canceled.result.Ok? <==> MayCancelTask(st.work, t, actor, reason))
            && (canceled.result.Err? ==> canceled.store == st)
            && (canceled.result.Ok? ==>
                  && canceled.store.work == CancelTask(st.work, t, actor, reason, now).work
                  && HasCleared(st, canceled.store, RunsToClear(st.work, t), reason.value, now))
  {
    hide InvExcept, BooksOk, CancelTask, Cleanup, HasCleared, NonBlank;
    CancelTaskIsAcceptedExactly(st.work, t, actor, reason, now);
    if CancelTask(st.work, t, actor, reason, now).result.Ok? {
      BooksOfCompany(st, {});
      LeaseIdIsFresh(st, {});
      CancelTaskRuns(st.work, t, actor, reason, now);
      CleanupMeans(st, CancelTask(st.work, t, actor, reason, now).work, CleanupIds(st.work, t), reason.value, now);
      assert reason.value != "" by { SomethingIsThere(reason.value); }
      assert CleanupIds(st.work, t) == RunsToClear(st.work, t);
    }
  }

  lemma SomethingIsThere(text: string)
    requires NonBlank(text)
    ensures text != ""
  {
  }

  /** A canceled run is moved there, unless it is there already, and loses what hangs on it. */
  lemma CancelWorkRunMeans(st: Store, r: Id, actor: string, reason: string, summary: Option<string>, now: Time)
    requires Inv(st) && NonBlank(actor) && CancelWorkRun(st, r, actor, reason, summary, now).result.Ok?
    ensures r in st.work.runs
    ensures var st' := CancelWorkRun(st, r, actor, reason, summary, now).store;
            && st'.work == (if st.work.runs[r].status == Canceled then st.work
                            else MoveRun(st.work, MoveInput(r, actor, Canceled, summary, Some(reason), None), now).work)
            && HasCleared(st, st', {r}, reason, now)
  {
    hide InvExcept, BooksOk, MoveRun, Cleanup, HasCleared, NonBlank;
    BooksOfCompany(st, {});
    LeaseIdIsFresh(st, {});
    CleanupMeans(st, st.work, {r}, reason, now);
    if st.work.runs[r].status != Canceled {
      var input := MoveInput(r, actor, Canceled, summary, Some(reason), None);
      MoveRunMoves(st.work, input, now);
      CleanupMeans(st, MoveRun(st.work, input, now).work, {r}, reason, now);
    }
  }

  // ---------------------------------------------------------------- dispatch

  /** Somebody has asked for this run to be dispatched again. */
  predicate IsRetried(st: Store, r: Id) {
    var l := Latest(st, r);
    l.Some? && st.leases[l.value].status == Pending && st.leases[l.value].retryOf.Some?
    && st.leases[l.value].source == FromRunAction
  }

  /** A queued run whose assignee has none in progress, and which no other pending or failed lease holds back. */
  ghost predicate MayGoOut(st: Store, r: Id) {
    && r in st.work.runs && st.work.runs[r].status == Queued
    && (forall q :: q in st.work.runs && st.work.runs[q].status == InProgress ==>
                      st.work.runs[q].assignee != st.work.runs[r].assignee)
    && var l := Latest(st, r);
       l.Some? ==> st.leases[l.value].status in {Acknowledged, LeaseCanceled} || IsRetried(st, r)
  }

  /** The dispatcher chooses the oldest retried run that may go out, or the oldest of all where there is none. */
  lemma NextCandidateMeans(st: Store)
    requires Inv(st)
    ensures match NextCandidate(st)
            case None => forall r :: !MayGoOut(st, r)
            case Some(r) =>
              && MayGoOut(st, r)
              && (forall q :: MayGoOut(st, q) && (IsRetried(st, q) || !IsRetried(st, r)) ==> r <= q)
              && (IsRetried(st, r) || forall q :: MayGoOut(st, q) ==> !IsRetried(st, q))
  {
    hide InvExcept, BooksOk, NextCandidate, Latest, MayGoOut, IsCandidate, IsExplicitRetry, IsRetried;
    BooksOfCompany(st, {});
    RunsHaveTasks(st.work);
    RunIdsAreOld(st.work);
    TheChoiceIsTheOldest(st);
    forall r ensures (IsCandidate(st, r) <==> MayGoOut(st, r)) && (IsExplicitRetry(st, r) <==> IsRetried(st, r)) {
      CandidatesMayGoOut(st, r);
    }
    forall r ensures MayGoOut(st, r) ==> r in st.work.runs { GoingOutIsThere(st, r); }
  }

  lemma GoingOutIsThere(st: Store, r: Id)
    ensures MayGoOut(st, r) ==> r in st.work.runs
  {
  }

  lemma RunIdsAreOld(w: Tables)
    requires BooksOk(w)
    ensures forall r :: r in w.runs ==> r < w.next
  {
    hide HistoryOk, RunRevisionsOk, TextsOk, CountsOk, IdleOk, SlotsOk, ArchivesOk, OneShotsOk, LogsOk;
  }

  lemma CandidatesMayGoOut(st: Store, r: Id)
    requires forall q :: q in st.work.runs ==> st.work.runs[q].task in st.work.tasks
    ensures IsCandidate(st, r) <==> MayGoOut(st, r)
    ensures IsExplicitRetry(st, r) <==> IsRetried(st, r)
  {
    hide Latest;
  }

  /** The chosen run goes out under its retry or a new lease: taken and started, or, where its assignee is not
      to be found, with the lease failed and the run left queued. */
  lemma DispatchMeans(st: Store, createdBy: string, s: Setting)
    requires Inv(st)
    ensures var sent := Dispatch(st, createdBy, s);
            match NextCandidate(st)
            case None => sent == Effect(st, Ok(None))
            case Some(r) =>
              && var a, l := st.work.runs[r], if IsRetried(st, r) then Latest(st, r).value else st.work.next;
                 && l in sent.store.leases && sent.store.leases == st.leases[l := sent.store.leases[l]]
                 && sent.store.requests == st.requests
                 && LeaseGoesOut(st, sent.store.leases[l], r, createdBy, a.assignee in s.homes, s)
                 && if a.assignee !in s.homes then
                      sent.result == Err(EmployeeMissing) && sent.store.work == st.work.(next := sent.store.work.next)
                    else sent.result == Ok(Some(r)) && RunIsStarted(st.work, sent.store.work, r, s.now)
  {
    hide InvExcept, BooksOk, NextCandidate, MoveRun, Latest, NonBlank, IsRetried, IsExplicitRetry, RunIsStarted;
    hide LeaseGoesOut, LeaseFor, AcknowledgeLease, FailPendingLease, StartInput;
    match NextCandidate(st)
    case None =>
    case Some(r) =>
      CandidateIsQueued(st, r);
      SentLease(st, r, createdBy, s);
      var leased := LeaseFor(st, r, createdBy, s);
      LeaseForKeepsCompany(st, r, createdBy, s, {});
      BooksOfCompany(leased, {});
      StartedRunMeans(st.work, leased.work, r, s.now);
      OnlyLeasesMove(leased, r, st.work.runs[r].assignee, s.now);
  }

  lemma OnlyLeasesMove(st: Store, r: Id, assignee: string, now: Time)
    ensures var taken, failed := AcknowledgeLease(st, r, assignee, now), FailPendingLease(st, r, UNRESOLVED, now);
            taken == st.(leases := taken.leases) && failed == st.(leases := failed.leases)
  {
    hide Latest;
  }

  lemma CandidateIsQueued(st: Store, r: Id)
    requires IsCandidate(st, r)
    ensures r in st.work.runs && st.work.runs[r].status == Queued
    ensures IsExplicitRetry(st, r) <==> IsRetried(st, r)
  {
    hide Latest;
  }

  /** The lease that waits for the run to go out: its retry, or a new one. */
  predicate LeaseWaits(st: Store, lease: Lease, r: Id, createdBy: string, s: Setting)
    requires r in st.work.runs
  {
    if IsRetried(st, r) then lease == st.leases[Latest(st, r).value]
    else IsNewLease(lease, r, st.work.runs[r].assignee, createdBy, None, FromDispatcher, s)
  }

  /** The waiting lease is taken, or has failed where the assignee is not found. */
  ghost predicate LeaseGoesOut(st: Store, lease: Lease, r: Id, createdBy: string, found: bool, s: Setting)
    requires r in st.work.runs
  {
    exists waiting :: LeaseWaits(st, waiting, r, createdBy, s)
                      && lease == if found then waiting.(status := Acknowledged, acknowledgedAt := Some(s.now))
                                  else waiting.(status := LeaseFailed, failedAt := Some(s.now), failureReason :=
                                                  Some("Cannot dispatch WorkRun: its employee was not found."))
  }

  lemma SentLease(st: Store, r: Id, createdBy: string, s: Setting)
    requires Inv(st) && IsCandidate(st, r)
    ensures var l := if IsRetried(st, r) then Latest(st, r).value else st.work.next;
            var leased := LeaseFor(st, r, createdBy, s);
            var taken := AcknowledgeLease(leased, r, st.work.runs[r].assignee, s.now).leases;
            var failed := FailPendingLease(leased, r, UNRESOLVED, s.now).leases;
            && l in taken && taken == st.leases[l := taken[l]] && LeaseGoesOut(st, taken[l], r, createdBy, true, s)
            && l in failed && failed == st.leases[l := failed[l]] && LeaseGoesOut(st, failed[l], r, createdBy, false, s)
  {
    hide InvExcept, LeaseFor, Latest, IsCandidate, LeaseWaits, AcknowledgeLease, FailPendingLease;
    CandidateIsQueued(st, r);
    var leased := LeaseFor(st, r, createdBy, s);
    var l := if IsRetried(st, r) then Latest(st, r).value else st.work.next;
    WaitingLease(st, r, createdBy, s);
    SettledLease(leased, r, l, s.now);
    assert LeaseWaits(st, leased.leases[l], r, createdBy, s);
  }

  lemma SettledLease(st: Store, r: Id, l: Id, now: Time)
    requires l in st.leases && Latest(st, r) == Some(l) && st.leases[l].status == Pending
    ensures AcknowledgeLease(st, r, st.leases[l].assignee, now).leases
            == st.leases[l := st.leases[l].(status := Acknowledged, acknowledgedAt := Some(now))]
    ensures FailPendingLease(st, r, UNRESOLVED, now).leases
            == st.leases[l := st.leases[l].(status := LeaseFailed, failedAt := Some(now), failureReason :=
                                              Some("Cannot dispatch WorkRun: its employee was not found."))]
  {
    hide Latest;
  }

  lemma WaitingLease(st: Store, r: Id, createdBy: string, s: Setting)
    requires Inv(st) && IsCandidate(st, r)
    ensures var l := if IsRetried(st, r) then Latest(st, r).value else st.work.next;
            var leased := LeaseFor(st, r, createdBy, s);
            && l in leased.leases && leased.leases == st.leases[l := leased.leases[l]] && Latest(leased, r) == Some(l)
            && leased.leases[l].status == Pending && leased.leases[l].assignee == st.work.runs[r].assignee
            && LeaseWaits(st, leased.leases[l], r, createdBy, s)
  {
    hide InvExcept, Latest, Idle;
    LeaseIdIsFresh(st, {});
    if IsExplicitRetry(st, r) {
      LeaseOfRun(st, Latest(st, r).value);
    } else {
      AddLeaseKeepsCompany(st, PendingLease(r, st.work.runs[r].assignee, createdBy, None, FromDispatcher, s), {});
    }
  }

  ghost predicate RunIsStarted(w: Tables, w': Tables, r: Id, now: Time)
    requires r in w.runs
  {
    && r in w'.runs && w'.runs == w.runs[r := w.runs[r].(status := InProgress, startedAt := w'.runs[r].startedAt,
                                                         updatedAt := now)]
    && w'.runs[r].startedAt == (if w.runs[r].startedAt.None? then Some(now) else w.runs[r].startedAt)
    && w'.tasks == w.tasks && w'.schedules == w.schedules && w'.revisions == w.revisions
    && exists e :: e !in w.events && e in w'.events && w'.events == w.events[e := w'.events[e]]
                   && w'.events[e].run == r && w'.events[e].timestamp == now && w'.events[e].eventType == "started"
                   && Some(w'.events[e].actor) == Normalized(Some(w.runs[r].assignee))
                   && w'.events[e].summary == "Dispatcher started WorkRun execution."
  }

  lemma StartedRunMeans(w: Tables, leased: Tables, r: Id, now: Time)
    requires BooksOk(leased) && leased == w.(next := leased.next) && r in w.runs && w.runs[r].status == Queued
    requires w.runs[r].task in w.tasks
    ensures MoveRun(leased, StartInput(r, w.runs[r].assignee), now).result.Ok?
    ensures RunIsStarted(w, MoveRun(leased, StartInput(r, w.runs[r].assignee), now).work, r, now)
  {
    hide BooksOk, MoveRun, EndsWork, NonBlank;
    AssigneeIsNamed(leased, r);
    var input := StartInput(r, w.runs[r].assignee);
    MoveRunIsAcceptedExactly(leased, input, now);
    MoveRunMeans(leased, input, now);
    StartTextIsText();
    var w' := MoveRun(leased, input, now).work;
    assert w'.schedules == w.schedules;
    assert leased.next !in w.events && w'.events[leased.next].run == r;
  }

  lemma StartTextIsText()
    ensures Normalized(Some("Dispatcher started WorkRun execution.")) == Some("Dispatcher started WorkRun execution.")
  {
  }
}
