/** Cancellation: a task or a run is canceled, and then everything that hangs on the canceled runs. */
module WorkCancellation {
  import opened Prelude
  import opened WorkDomain
  import opened WorkOperations
  import opened Listings
  import opened WorkInvariants
  import opened WorkRepository
  import opened Company
  import opened CompanyInvariants
  import opened CompanyKept
  import opened CompanyTheorems
  import opened CompanyDatabase
  import Service = WorkService
  import opened WorkDispatchLease

  ghost function IdsIn(ids: seq<Id>): set<Id> {
    set r | r in ids
  }

  /** Canceling the latest leases run by run is canceling them all at once. */
  lemma CancelOneMoreLease(st: Store, done: set<Id>, r: Id, reason: string, now: Time)
    ensures var mid := st.(leases := CancelLeases(st, done, reason, now));
            CancelLeases(mid, {r}, reason, now) == CancelLeases(st, done + {r}, reason, now)
  {
    var mid := st.(leases := CancelLeases(st, done, reason, now));
    forall q ensures Latest(mid, q) == Latest(st, q) {
      LatestOnlyReadsRuns(st.leases, mid.leases, q, st.work.next);
    }
  }

  lemma CancelOneMoreRequest(requests: map<Id, Request>, done: set<Id>, r: Id, now: Time)
    ensures var mid := CancelRequests(requests, done, now);
            CancelRequests(requests, done + {r}, now)
            == if r in mid && mid[r].status == Open then mid[r := CanceledRequest(mid[r], now)] else mid
  {
  }

  class WorkCancellationService {
    const db: Database
    const workService: Service.WorkService
    const leaseService: WorkDispatchLeaseService

    constructor (db: Database)
      ensures this.db == workService.db == leaseService.db == db
    {
      this.db := db;
      workService := new Service.WorkService(db);
      leaseService := new WorkDispatchLeaseService(db, None);
    }

    ghost predicate Wired() {
      workService.db == db && leaseService.db == db
    }

    /** Cancels the latest leases of the runs, one after another, and then their open requests. */
    method CleanupRuns(ids: seq<Id>, reason: string, now: Time)
      requires Wired() && LeaseIdsAreOld(db.store)
      modifies db
      ensures db.store == Cleanup(old(db.store), IdsIn(ids), reason, now)
    {
      hide CancelLeases, CancelRequests;
      ghost var st := db.store;
      assert CancelLeases(st, {}, reason, now) == st.leases by { NothingToCancel(st, reason, now); }
      var index := 0;
      assert IdsIn(ids[..0]) == {};
      while index < |ids|
        invariant 0 <= index <= |ids|
        invariant db.store == st.(leases := CancelLeases(st, IdsIn(ids[..index]), reason, now))
                  && LeaseIdsAreOld(db.store)
      {
        CanceledIdsAreOld(db.store, {ids[index]}, reason, now);
        leaseService.CancelLatestLease(ids[index], reason, now);
        CancelOneMoreLease(st, IdsIn(ids[..index]), ids[index], reason, now);
        assert IdsIn(ids[..index + 1]) == IdsIn(ids[..index]) + {ids[index]};
        index := index + 1;
      }
      assert ids[..index] == ids;
      ghost var mid := db.store;
      assert CancelRequests(st.requests, {}, now) == st.requests by { NothingToCancel(st, reason, now); }
      index := 0;
      while index < |ids|
        invariant 0 <= index <= |ids|
        invariant db.store == mid.(requests := CancelRequests(st.requests, IdsIn(ids[..index]), now))
      {
        CancelOneMoreRequest(st.requests, IdsIn(ids[..index]), ids[index], now);
        assert IdsIn(ids[..index + 1]) == IdsIn(ids[..index]) + {ids[index]};
        var r := ids[index];
        if r in db.store.requests && db.store.requests[r].status == Open {
          db.store := db.store.(requests := db.store.requests[r := CanceledRequest(db.store.requests[r], now)]);
        }
        index := index + 1;
      }
      assert ids[..index] == ids;
    }

    /** The runs of the task that its cancellation is to clear, as they were before it. */
    method CleanupCandidates(t: Id) returns (ids: seq<Id>)
      requires BooksOk(db.store.work)
      ensures IdsIn(ids) == CleanupIds(db.store.work, t)
    {
      hide BooksOk, Repository.View, Repository.Valid, Repository.Synced, RunIdsOf;
      RunsAreFresh(db.store.work);
      var repository := new Repository(db.store.work);
      var runs := repository.ListWorkRuns(t);
      RunIdsComplete(db.store.work.runs, t, db.store.work.next);
      ids := [];
      var index := 0;
      while index < |runs|
        invariant 0 <= index <= |runs| && repository.View() == db.store.work
        invariant forall r :: r in ids <==> r in runs[..index] && NeedsCleanup(db.store.work.runs[r].status)
      {
        var run := repository.GetWorkRun(runs[index]);
        assert forall r :: r in runs[..index + 1] <==> r in runs[..index] || r == runs[index] by {
          assert runs[..index + 1] == runs[..index] + [runs[index]];
        }
        if NeedsCleanup(run.value.status) {
          ids := ids + [runs[index]];
        }
        index := index + 1;
      }
      assert runs[..index] == runs;
    }

    method CancelWorkTask(t: Id, actor: string, reason: Option<string>, now: Time) returns (result: Result<Id, Error>)
      requires Wired() && Inv(db.store)
      modifies db
      ensures Effect(db.store, result) == Company.CancelWorkTask(old(db.store), t, actor, reason, now)
    {
      hide InvExcept, BooksOk, Cleanup, CleanupIds, CancelTask;
      ghost var st := db.store;
      BooksOfCompany(st, {});
      LeaseIdIsFresh(st, {});
      if t !in db.store.work.tasks {
        return Err(NotFound);
      }
      var ids := CleanupCandidates(t);
      result := workService.CancelWorkTask(t, actor, reason, now);
      if result.Ok? {
        TaskCancelHandsOut(st.work, t, actor, reason, now);
        CleanupRuns(ids, if reason.None? || reason.value == "" then "WorkTask canceled." else reason.value, now);
      }
    }

    method CancelWorkRun(r: Id, actor: string, reason: string, summary: Option<string>, now: Time)
      returns (result: Result<Id, Error>)
      requires Wired() && Inv(db.store)
      modifies db
      ensures Effect(db.store, result) == Company.CancelWorkRun(old(db.store), r, actor, reason, summary, now)
    {
      hide InvExcept, BooksOk, Cleanup, MoveRun;
      ghost var st := db.store;
      BooksOfCompany(st, {});
      LeaseIdIsFresh(st, {});
      if r !in db.store.work.runs {
        return Err(NotFound);
      }
      var run := db.store.work.runs[r];
      if run.status == Done || run.status == Failed {
        return Err(RunIsTerminal);
      }
      result := Ok(r);
      if run.status != Canceled {
        result := workService.MoveWorkRun(MoveInput(r, actor, Canceled, summary, Some(reason), None), now);
        MoveRunHandsOut(st.work, MoveInput(r, actor, Canceled, summary, Some(reason), None), now);
      }
      if result.Ok? {
        CleanupRuns([r], reason, now);
        assert IdsIn([r]) == {r};
        result := Ok(r);
      }
    }
  }

  lemma NothingToCancel(st: Store, reason: string, now: Time)
    ensures CancelLeases(st, {}, reason, now) == st.leases && CancelRequests(st.requests, {}, now) == st.requests
  {
  }

  lemma CanceledIdsAreOld(st: Store, ids: set<Id>, reason: string, now: Time)
    requires LeaseIdsAreOld(st)
    ensures LeaseIdsAreOld(st.(leases := CancelLeases(st, ids, reason, now)))
  {
  }

  lemma MoveRunHandsOut(w: Tables, input: MoveInput, now: Time)
    ensures w.next <= MoveRun(w, input, now).work.next
  {
    hide MoveError, MovedRun, ScheduleOf, SettledTask, SettledSchedule;
  }

  lemma TaskCancelHandsOut(w: Tables, t: Id, actor: string, reason: Option<string>, now: Time)
    requires BooksOk(w) && CancelTask(w, t, actor, reason, now).result.Ok?
    ensures w.next <= CancelTask(w, t, actor, reason, now).work.next
    ensures CancelTask(w, t, actor, reason, now).result == Ok(t)
  {
    CancelTaskRuns(w, t, actor, reason, now);
  }
}
