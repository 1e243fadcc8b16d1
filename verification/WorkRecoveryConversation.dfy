/** A participant's reply in a recovery conversation resumes the blocked run and settles its request. */
module WorkRecoveryConversation {
  import opened Prelude
  import opened WorkDomain
  import opened Company
  import opened CompanyInvariants
  import opened CompanyKept
  import opened CompanyHistory
  import opened CompanyTheorems
  import opened CompanyDatabase
  import opened WorkBlockedRecovery
  import opened ProviderTurns
  import opened WorkExecution

  datatype IgnoredReason = NoOpenRecovery | AssigneeMessage | UnexpectedParticipant

  datatype ParticipantMessageResult = Ignored(reason: IgnoredReason) | Resumed(run: Id, reply: string)

  /** The open request that the conversation belongs to. */
  predicate Asks(st: Store, r: Id, conversation: Id) {
    r in st.requests && st.requests[r].status == Open && st.requests[r].conversation == conversation
  }

  /** The requester's words count, if the assignee is there to hear them and the run is still blocked. */
  predicate Heard(st: Store, r: Id, actor: string, homes: set<string>)
    requires r in st.requests
  {
    actor == st.requests[r].requester && st.requests[r].assignee in homes && r in st.work.runs
    && st.work.runs[r].status == Blocked
  }

  /** The answers to words in the conversation of a request. */
  predicate Answered(request: Request, actor: string, homes: set<string>, result: Result<ParticipantMessageResult,
                     string>) {
    && (actor == request.assignee <==> result == Ok(Ignored(AssigneeMessage)))
    && (actor !in {request.assignee, request.requester} <==> result == Ok(Ignored(UnexpectedParticipant)))
    && (actor == request.requester && request.assignee !in homes ==>
          result == Err("Blocked recovery assignee was not found."))
  }

  /** The request of a run that is not blocked any more is closed now: canceled with a canceled run, and
      resolved with any other. */
  predicate RequestIsSettled(st: Store, r: Id, now: Time)
    requires r in st.work.runs
  {
    && r in st.requests
    && var request := st.requests[r];
       match st.work.runs[r].status
       case Blocked => request.status == Open
       case Canceled =>
         request.status == RequestCanceled && request.canceledAt == Some(now) && request.updatedAt == now
       case _ => request.status == Resolved && request.resolvedAt == Some(now) && request.updatedAt == now
  }

  lemma OneRequestAsks(st: Store, q: Id, r: Id, conversation: Id)
    requires Inv(st) && Asks(st, q, conversation) && Asks(st, r, conversation)
    ensures q == r
  {
    hide LeasesOk, BlockedReachable;
  }

  class WorkBlockedRecoveryConversationService {
    const db: Database
    const executor: WorkExecutionService
    const requests: RecoveryRequests

    constructor (executor: WorkExecutionService)
      ensures this.executor == executor && db == executor.db == requests.db
    {
      this.db := executor.db;
      this.executor := executor;
      requests := new RecoveryRequests(executor.db);
    }

    ghost predicate Wired() {
      executor.db == db && requests.db == db
    }

    /** Only the requester's words resume a run, and only a blocked one.  After a recovery without error the
        request is open exactly if the run is blocked again, and the run is not left in progress.  An error
        settles no request: where nobody else does anything and the provider gets stuck, the run is left in
        progress with its request open, and all that is said after that is refused. */
    method HandleParticipantMessage(conversation: Id, actor: string, body: string, homes: set<string>, now: Time)
      returns (result: Result<ParticipantMessageResult, string>)
      requires Wired() && Inv(db.store)
      modifies db, executor
      ensures Inv(db.store) && CompanyGoesOn(old(db.store), db.store)
      ensures (forall r :: !Asks(old(db.store), r, conversation)) <==> result == Ok(Ignored(NoOpenRecovery))
      ensures forall r :: Asks(old(db.store), r, conversation) ==>
                && Answered(old(db.store).requests[r], actor, homes, result)
                && (!Heard(old(db.store), r, actor, homes) ==>
                      db.store == old(db.store) && executor.calls == old(executor.calls)
                      && (result.Err? || result.value.Ignored?))
      ensures result.Ok? && result.value.Resumed? ==>
                var r := result.value.run;
                && Asks(old(db.store), r, conversation) && Heard(old(db.store), r, actor, homes)
                && r in db.store.work.runs && StatusIn(db.store, r) != InProgress
                && (HasOpenRequest(db.store, r) <==> StatusIn(db.store, r) == Blocked)
                && RequestIsSettled(db.store, r, now)
      ensures forall r :: Asks(old(db.store), r, conversation) && Heard(old(db.store), r, actor, homes)
                          && NonBlank(body) && executor.Quiet() && executor.ChannelsAreSilent() ==>
                r in db.store.work.runs
                && (StatusIn(db.store, r) == InProgress <==>
                      GetsStuck(executor.provider, executor.maxTurns, old(executor.calls)))
                && (StatusIn(db.store, r) == InProgress ==> result.Err? && HasOpenRequest(db.store, r))
    {
      hide InvExcept, CompanyGoesOn, GetsStuck, RecoveryWent, NonBlank;
      ghost var st := db.store;
      NothingGoesOn(st);
      var found := requests.GetOpenByConversationId(conversation);
      if found.None? {
        return Ok(Ignored(NoOpenRecovery));
      }
      var r := found.value;
      var request := db.store.requests[r];
      assert Asks(st, r, conversation);
      KnownRequestFits(st, r, {});
      forall q | Asks(st, q, conversation) ensures q == r {
        OneRequestAsks(st, q, r, conversation);
      }
      if actor == request.assignee {
        return Ok(Ignored(AssigneeMessage));
      }
      if actor != request.requester {
        return Ok(Ignored(UnexpectedParticipant));
      }
      if request.assignee !in homes {
        return Err("Blocked recovery assignee was not found.");
      }
      if StatusIn(db.store, r) != Blocked {
        return Err("WorkRun is not blocked.");
      }
      var execution := executor.ContinueWorkRunExecution(r, request.assignee, body);
      if execution.Err? {
        return Err(execution.error);
      }
      ghost var st1 := db.store;
      GoingOnKeepsRun(st, st1, r);
      RequestGoesOn(st, st1, r);
      if StatusIn(db.store, r) == Canceled {
        requests.Cancel(r, now);
      } else if StatusIn(db.store, r) != Blocked {
        requests.Resolve(r, now);
      }
      Settled(st1, r, now);
      CompanyGoesOnTransitive(st, st1, db.store);
      return Ok(Resumed(r, execution.value));
    }
  }

  lemma RequestGoesOn(a: Store, b: Store, r: Id)
    requires CompanyGoesOn(a, b) && r in a.requests
    ensures r in b.requests && SameRequest(a.requests[r], b.requests[r])
  {
  }

  lemma Settled(st: Store, r: Id, now: Time)
    requires Inv(st) && r in st.requests && r in st.work.runs
    ensures var st' := SettleRequest(st, r, now);
            && Inv(st') && CompanyGoesOn(st, st') && st'.work == st.work
            && (HasOpenRequest(st', r) <==> StatusIn(st', r) == Blocked)
  {
    hide CompanyGoesOn;
    SettleRequestKeepsCompany(st, r, Setting({}, {}, now, 0), {});
    SettleRequestGoesOn(st, r, now);
    LeasesOfCompany(st);
    hide InvExcept;
  }
}
