/** The run actions of the tasks page: each goes through only where the page would offer it. */
module TasksRunActions {
  import opened Prelude
  import opened WorkDomain
  import opened WorkOperations
  import opened WorkEffects
  import opened Company
  import opened CompanyInvariants
  import opened CompanyKept
  import opened CompanyEffects
  import opened CompanyDatabase
  import opened WorkDispatchLease
  import opened WorkCancellation

  datatype RunAction = RetryDispatchAction | RetryRunAction | CancelRunAction

  /** When the page enables an action. */
  predicate IsEnabled(action: RunAction, status: RunStatus, latest: Option<LeaseStatus>) {
    match action
    case RetryDispatchAction => status == Queued && latest == Some(LeaseFailed)
    case RetryRunAction => status == Failed
    case CancelRunAction => status == Queued || status == InProgress || status == Blocked
  }

  const CANCELED_BY_ACTION := "Canceled from Tasks Run action."

  class TasksRunActionService {
    const db: Database
    const workService: Service.WorkService
    const leaseService: WorkDispatchLeaseService
    const cancellation: WorkCancellationService

    constructor (db: Database)
      ensures this.db == db && Wired()
    {
      this.db := db;
      workService := new Service.WorkService(db);
      leaseService := new WorkDispatchLeaseService(db, None);
      cancellation := new WorkCancellationService(db);
    }

    ghost predicate Wired() {
      workService.db == db && leaseService.db == db && cancellation.db == db && cancellation.Wired()
    }

    /** The statuses the gate looks at: the run's, and its latest lease's. */
    method LatestStatus(r: Id) returns (latest: Option<LeaseStatus>)
      requires Wired() && LeaseIdsAreOld(db.store)
      ensures latest.Some? <==> Latest(db.store, r).Some?
      ensures latest.Some? ==> latest.value == db.store.leases[Latest(db.store, r).value].status
    {
      hide Latest;
      var repository := new LeaseRepository(db.store.leases);
      var lease := leaseService.LatestLeaseOf(repository, r);
      latest := if lease.Some? then Some(lease.value.row.status) else None;
    }

    /** A new pending lease that answers the run's failed one. */
    method RetryTheDispatch(r: Id, actor: string, now: Time) returns (result: Result<Id, Error>)
      requires Wired() && LeaseIdsAreOld(db.store)
      requires r in db.store.work.runs && db.store.work.runs[r].status == Queued && LatestIs(db.store, r, {LeaseFailed})
      modifies db
      ensures Effect(db.store, result) == RetryDispatch(old(db.store), r, actor,
                                                        Setting({}, {}, now, leaseService.leaseTtlMs))
    {
      hide Latest, CreateLease;
      var repository := new LeaseRepository(db.store.leases);
      var latest := leaseService.LatestLeaseOf(repository, r);
      result := leaseService.CreatePendingLease(r, latest.value.row.assignee, actor, Some(latest.value.id),
                                                FromRunAction, now);
    }

    /** A retried dispatch answers the failed lease that is the run's latest; the other two actions are the
        services' own operations, where the page would offer them. */
    method ExecuteTasksRunAction(r: Id, action: RunAction, actor: string, reason: Option<string>,
                                 directory: set<string>, now: Time)
      returns (result: Result<Id, Error>)
      requires Wired() && Inv(db.store)
      modifies db
      ensures Inv(db.store)
      ensures !NonBlank(actor) ==> result == Err(TextRequired) && db.store == old(db.store)
      ensures NonBlank(actor) && !Offered(old(db.store), action, r) ==> result.Err? && db.store == old(db.store)
      ensures NonBlank(actor) && Offered(old(db.store), action, r) ==>
                Effect(db.store, result)
                == ActionEffect(old(db.store), action, r, Normalized(Some(actor)).value, reason, directory, now,
                                leaseService.leaseTtlMs)
    {
      hide InvExcept, RetryRun, RetryDispatch, Company.CancelWorkRun, NonBlank, Latest;
      ghost var st := db.store;
      BooksOfCompany(st, {});
      LeaseIdIsFresh(st, {});
      var who := Normalized(Some(actor));
      if who.None? {
        return Err(TextRequired);
      }
      if r !in db.store.work.runs {
        return Err(NotFound);
      }
      var latest := LatestStatus(r);
      if !IsEnabled(action, db.store.work.runs[r].status, latest) {
        return Err(MoveNotAllowed);
      }
      ghost var s := Setting(directory, {}, now, leaseService.leaseTtlMs);
      match action
      case RetryDispatchAction =>
        RetryDispatchKeepsCompany(st, r, who.value, Setting({}, {}, now, leaseService.leaseTtlMs), {});
        result := RetryTheDispatch(r, who.value, now);
      case RetryRunAction =>
        RetryRunKeepsCompany(st, r, who.value, None, s, {});
        result := workService.RetryWorkRun(r, who.value, None, directory, now);
      case CancelRunAction =>
        var why := OrElse(Normalized(reason), Some(CANCELED_BY_ACTION)).value;
        CancelRunKeepsCompany(st, r, who.value, why, Some(ACCEPTED), s, {});
        result := cancellation.CancelWorkRun(r, who.value, why, Some(ACCEPTED), now);
    }
  }

  const ACCEPTED := "Cancel accepted from Tasks Run actions."

  /** Whether the page offers the action for the run. */
  predicate Offered(st: Store, action: RunAction, r: Id) {
    && r in st.work.runs
    && IsEnabled(action, st.work.runs[r].status, if Latest(st, r).Some? then Some(st.leases[Latest(st, r).value].status)
                 else None)
  }

  /** What is offered is what the services would do: a dispatch is retried, and a run canceled, exactly where the
      page says so, but that a canceled run may be cleared once more; and only failed runs are retried. */
  lemma OffersAreAccepted(st: Store, r: Id, actor: string, reason: string, s: Setting)
    requires Inv(st) && NonBlank(actor) && NonBlank(reason)
    ensures Offered(st, RetryDispatchAction, r) <==> RetryDispatch(st, r, actor, s).result.Ok?
    ensures Offered(st, CancelRunAction, r) <==>
              Company.CancelWorkRun(st, r, actor, reason, None, s.now).result.Ok? && st.work.runs[r].status != Canceled
    ensures Offered(st, RetryRunAction, r) <==> r in st.work.runs && st.work.runs[r].status == Failed
  {
    hide InvExcept, RetryDispatch, MoveRun, Cleanup, NonBlank, Latest;
    RetryDispatchMeans(st, r, actor, s);
    MoveRunIsAcceptedExactly(st.work, MoveInput(r, actor, Canceled, None, Some(reason), None), s.now);
  }

  function ActionEffect(st: Store, action: RunAction, r: Id, actor: string, reason: Option<string>,
                        directory: set<string>, now: Time, ttl: int): Effect<Id> {
    match action
    case RetryDispatchAction => RetryDispatch(st, r, actor, Setting({}, {}, now, ttl))
    case RetryRunAction => Worked(st, RetryRun(st.work, r, actor, None, directory, now))
    case CancelRunAction => Company.CancelWorkRun(st, r, actor,
                                                  OrElse(Normalized(reason), Some(CANCELED_BY_ACTION)).value,
                                                    Some(ACCEPTED), now)
  }
}
