/** Dispatch: choosing the next run, leasing it, and starting its execution. */
module WorkDispatch {
  import opened Prelude
  import opened WorkDomain
  import opened WorkOperations
  import opened Listings
  import opened WorkRepository
  import opened Company
  import opened CompanyInvariants
  import opened CompanyKept
  import opened CompanyHistory
  import opened DispatchOrder
  import opened Interference
  import opened CompanyDatabase
  import opened WorkDispatchLease
  import opened WorkExecution

  datatype Candidate = Candidate(run: Id, pendingLease: Option<Id>)

  /** A candidate run, with its explicit retry lease if it has one. */
  ghost predicate IsCandidateRecord(st: Store, candidate: Candidate) {
    && IsCandidate(st, candidate.run)
    && (candidate.pendingLease.Some? <==> IsExplicitRetry(st, candidate.run))
    && (candidate.pendingLease.Some? ==> candidate.pendingLease == Latest(st, candidate.run))
  }

  ghost predicate OldestFirst(candidates: seq<Candidate>) {
    forall i, j :: 0 <= i < j < |candidates| ==> candidates[i].run < candidates[j].run
  }

  ghost predicate HasRecord(candidates: seq<Candidate>, r: Id) {
    exists i :: 0 <= i < |candidates| && candidates[i].run == r
  }

  /** The candidates of a listing, oldest first. */
  ghost predicate AreCandidates(st: Store, candidates: seq<Candidate>, ids: seq<Id>) {
    && (forall i :: 0 <= i < |candidates| ==> candidates[i].run in ids && IsCandidateRecord(st, candidates[i]))
    && OldestFirst(candidates)
    && (forall r :: r in ids && IsCandidate(st, r) ==> HasRecord(candidates, r))
  }

  lemma ChoiceIsUnique(st: Store, q: Id, r: Id)
    requires IsChoice(st, q) && IsChoice(st, r)
    ensures q == r
  {
  }

  class WorkDispatcher {
    const db: Database
    const leaseService: WorkDispatchLeaseService

    constructor (db: Database, leaseService: WorkDispatchLeaseService)
      ensures this.db == db && this.leaseService == leaseService
    {
      this.db := db;
      this.leaseService := leaseService;
    }

    /** Whether the member has nothing in progress. */
    method IsAssigneeIdle(assignee: string) returns (idle: bool)
      ensures idle <==> Idle(db.store.work, assignee)
    {
      var repository := new Repository(db.store.work);
      RowsAreTheTable(repository);
      var rows := repository.runs;
      idle := true;
      var index := 0;
      while index < |rows|
        invariant 0 <= index <= |rows|
        invariant idle <==> forall i :: 0 <= i < index ==>
                                          !(rows[i].row.status == InProgress && rows[i].row.assignee == assignee)
      {
        var run := rows[index].row;
        if run.status == InProgress && run.assignee == assignee {
          idle := false;
        }
        index := index + 1;
      }
    }

    /** The queued runs, oldest first. */
    method QueuedRuns() returns (ids: seq<Id>)
      ensures Ascending(ids)
      ensures forall r :: r in ids <==> r in db.store.work.runs && db.store.work.runs[r].status == Queued
    {
      var repository := new Repository(db.store.work);
      RowsAreTheTable(repository);
      var rows := repository.runs;
      ids := [];
      var index := 0;
      while index < |rows|
        invariant 0 <= index <= |rows| && Ascending(ids)
        invariant forall r :: r in ids <==>
                                exists i :: 0 <= i < index && rows[i].id == r && rows[i].row.status == Queued
      {
        var entry := rows[index];
        if entry.row.status == Queued {
          assert forall i :: 0 <= i < index ==> rows[i].id != entry.id;
          ids := InsertAscending(ids, entry.id);
        }
        index := index + 1;
      }
    }

    method FindNextDispatchCandidate() returns (found: Option<Candidate>)
      requires LeaseIdsAreOld(db.store) && leaseService.db == db
      ensures found.Some? ==> found.value.run in db.store.work.runs && IsChoice(db.store, found.value.run)
                              && (found.value.pendingLease.Some? <==> IsExplicitRetry(db.store, found.value.run))
      ensures found.None? ==> forall r :: !IsCandidate(db.store, r)
    {
      hide IsExplicitRetry, Idle, LatestIs, Latest;
      var oldestQueuedRuns := QueuedRuns();
      var candidates: seq<Candidate> := [];
      var index := 0;
      while index < |oldestQueuedRuns|
        invariant 0 <= index <= |oldestQueuedRuns|
        invariant AreCandidates(db.store, candidates, oldestQueuedRuns[..index])
      {
        var r := oldestQueuedRuns[index];
        var candidate := Consider(r);
        ghost var before := candidates;
        if candidate.Some? {
          candidates := candidates + [candidate.value];
        }
        OneMoreConsidered(db.store, before, candidates, oldestQueuedRuns, index, candidate);
        index := index + 1;
      }
      assert oldestQueuedRuns[..index] == oldestQueuedRuns;
      index := 0;
      while index < |candidates| && candidates[index].pendingLease.None?
        invariant 0 <= index <= |candidates|
        invariant forall j :: 0 <= j < index ==> candidates[j].pendingLease.None?
      {
        index := index + 1;
      }
      if index < |candidates| {
        FoundIsTheChoice(db.store, candidates, oldestQueuedRuns, index);
        return Some(candidates[index]);
      }
      if candidates == [] {
        return None;
      }
      FoundIsTheChoice(db.store, candidates, oldestQueuedRuns, 0);
      return Some(candidates[0]);
    }

    /** The loop's test of one queued run. */
    method Consider(r: Id) returns (candidate: Option<Candidate>)
      requires LeaseIdsAreOld(db.store) && leaseService.db == db
      requires r in db.store.work.runs && db.store.work.runs[r].status == Queued
      ensures candidate.Some? <==> IsCandidate(db.store, r)
      ensures candidate.Some? ==> candidate.value.run == r && IsCandidateRecord(db.store, candidate.value)
    {
      hide Idle, Latest;
      var run := db.store.work.runs[r];
      var idle := IsAssigneeIdle(run.assignee);
      if !idle {
        return None;
      }
      var repository := new LeaseRepository(db.store.leases);
      var latest := leaseService.LatestLeaseOf(repository, r);
      var pendingLease: Option<Id> := None;
      if latest.Some? && latest.value.row.status == Pending && latest.value.row.retryOf.Some?
         && latest.value.row.source == FromRunAction {
        pendingLease := Some(latest.value.id);
      } else if latest.Some? && (latest.value.row.status == Pending || latest.value.row.status == LeaseFailed) {
        return None;
      }
      if run.task !in db.store.work.tasks {
        return None;
      }
      return Some(Candidate(r, pendingLease));
    }

    /** Leases the chosen run: under its explicit retry lease, or a new one. */
    method DispatchNext(createdBy: string, now: Time) returns (chosen: Option<Id>)
      requires Inv(db.store) && leaseService.db == db
      modifies db
      ensures chosen == NextCandidate(old(db.store))
      ensures db.store == if chosen.None? then old(db.store)
                          else LeaseFor(old(db.store), chosen.value, createdBy,
                                        Setting({}, {}, now, leaseService.leaseTtlMs))
    {
      hide InvExcept, IsCandidate, IsExplicitRetry, NextCandidate, AddLease;
      LeaseIdIsFresh(db.store, {});
      BooksOfCompany(db.store, {});
      RunsAreFresh(db.store.work);
      TheChoiceIsTheOldest(db.store);
      var candidate := FindNextDispatchCandidate();
      if candidate.None? {
        return None;
      }
      var r := candidate.value.run;
      assert NextCandidate(db.store) == Some(r) by { ChosenIsNext(db.store, r); }
      if candidate.value.pendingLease.None? {
        var _ := leaseService.CreatePendingLease(r, db.store.work.runs[r].assignee, createdBy, None, FromDispatcher,
                                                 now);
      }
      return Some(r);
    }
  }

  lemma RowsAreTheTable(repository: Repository)
    requires repository.Valid()
    ensures forall i :: 0 <= i < |repository.runs| ==>
                          repository.runs[i].id in repository.View().runs
                          && repository.View().runs[repository.runs[i].id] == repository.runs[i].row
    ensures forall r :: r in repository.View().runs ==>
              exists i :: 0 <= i < |repository.runs| && repository.runs[i].id == r
  {
    forall i | 0 <= i < |repository.runs|
      ensures repository.runs[i].id in repository.View().runs
              && repository.View().runs[repository.runs[i].id] == repository.runs[i].row
    {
      ToMapFirst(repository.runs, i);
    }
    forall r | r in repository.View().runs
      ensures exists i :: 0 <= i < |repository.runs| && repository.runs[i].id == r
    {
      ToMapKeys(repository.runs, r);
    }
  }

  lemma ChosenIsNext(st: Store, r: Id)
    requires IsChoice(st, r) && r in st.work.runs && forall q :: q in st.work.runs ==> q < st.work.next
    ensures NextCandidate(st) == Some(r)
  {
    hide NextCandidate, IsExplicitRetry, Idle, LatestIs;
    TheChoiceIsTheOldest(st);
    if NextCandidate(st).Some? { ChoiceIsUnique(st, NextCandidate(st).value, r); }
  }

  lemma OneMoreConsidered(st: Store, before: seq<Candidate>, after: seq<Candidate>, ids: seq<Id>, index: nat,
                          candidate: Option<Candidate>)
    requires index < |ids| && Ascending(ids) && AreCandidates(st, before, ids[..index])
    requires candidate.Some? <==> IsCandidate(st, ids[index])
    requires candidate.Some? ==> candidate.value.run == ids[index] && IsCandidateRecord(st, candidate.value)
    requires after == if candidate.Some? then before + [candidate.value] else before
    ensures AreCandidates(st, after, ids[..index + 1])
  {
    hide IsCandidate, IsCandidateRecord, HasRecord, OldestFirst;
    assert forall r :: r in ids[..index + 1] <==> r in ids[..index] || r == ids[index] by {
      assert ids[..index + 1] == ids[..index] + [ids[index]];
    }
    if candidate.Some? {
      assert OldestFirst(after) by { LaterComesLast(before, candidate.value, ids, index); }
      forall r ensures HasRecord(after, r) <==> HasRecord(before, r) || r == ids[index] {
        OneMoreRecord(before, candidate.value, r);
      }
    }
  }

  lemma OneMoreRecord(before: seq<Candidate>, last: Candidate, r: Id)
    ensures HasRecord(before + [last], r) <==> HasRecord(before, r) || r == last.run
  {
    var after := before + [last];
    assert after[|before|] == last;
    if i :| 0 <= i < |before| && before[i].run == r { assert after[i].run == r; }
  }

  lemma LaterComesLast(before: seq<Candidate>, last: Candidate, ids: seq<Id>, index: nat)
    requires OldestFirst(before) && Ascending(ids) && index < |ids| && last.run == ids[index]
    requires forall i :: 0 <= i < |before| ==> before[i].run in ids[..index]
    ensures OldestFirst(before + [last])
  {
  }

  lemma FoundIsTheChoice(st: Store, candidates: seq<Candidate>, ids: seq<Id>, k: nat)
    requires AreCandidates(st, candidates, ids) && k < |candidates|
    requires forall r :: r in st.work.runs && IsCandidate(st, r) ==> r in ids
    requires if candidates[k].pendingLease.Some? then forall j :: 0 <= j < k ==> candidates[j].pendingLease.None?
             else k == 0 && forall j :: 0 <= j < |candidates| ==> candidates[j].pendingLease.None?
    ensures IsChoice(st, candidates[k].run)
  {
    hide IsCandidate, IsExplicitRetry, Latest;
    assert IsCandidateRecord(st, candidates[k]);
    forall q | q in st.work.runs && IsCandidate(st, q)
      ensures q < candidates[k].run ==> IsExplicitRetry(st, candidates[k].run) && !IsExplicitRetry(st, q)
      ensures !IsExplicitRetry(st, candidates[k].run) ==> !IsExplicitRetry(st, q)
    {
      assert HasRecord(candidates, q);
      var i :| 0 <= i < |candidates| && candidates[i].run == q;
      assert IsCandidateRecord(st, candidates[i]);
    }
  }

  // ---------------------------------------------------------------- the runner

  class WorkDispatchRunner {
    const db: Database
    const dispatcher: WorkDispatcher
    const executor: WorkExecutionService

    constructor (dispatcher: WorkDispatcher, executor: WorkExecutionService)
      requires executor.db == dispatcher.db
      ensures this.dispatcher == dispatcher && this.executor == executor && this.db == dispatcher.db
    {
      this.db := dispatcher.db;
      this.dispatcher := dispatcher;
      this.executor := executor;
    }

    ghost predicate Wired() {
      dispatcher.db == db && dispatcher.leaseService.db == db && executor.db == db
    }

    /** Leases the next run, takes the lease in its assignee's name, and only then starts the execution;
        a run whose employee is not found gets its lease failed instead, and is not dispatched again
        until somebody retries it. */
    method DispatchNextToWorkRunSession(createdBy: string, homes: set<string>, now: Time)
      returns (result: Result<Option<Id>, string>)
      requires Wired() && Inv(db.store)
      modifies db, executor
      ensures Inv(db.store) && CompanyGoesOn(old(db.store), db.store)
      ensures NextCandidate(old(db.store)).None? ==>
                result == Ok(None) && db.store == old(db.store) && executor.calls == old(executor.calls)
      ensures NextCandidate(old(db.store)).Some? && ChosenAssignee(old(db.store)) !in homes ==>
                && result.Err? && executor.calls == old(executor.calls)
                && db.store == Dispatch(old(db.store), createdBy,
                                        Setting({}, homes, now, dispatcher.leaseService.leaseTtlMs)).store
      ensures NextCandidate(old(db.store)).Some? && ChosenAssignee(old(db.store)) in homes ==>
                NextCandidate(old(db.store)).value in db.store.work.runs
                && (result.Ok? ==> result.value == NextCandidate(old(db.store)))
      ensures NextCandidate(old(db.store)).Some? && ChosenAssignee(old(db.store)) in homes && executor.maxTurns >= 2 ==>
                var r := NextCandidate(old(db.store)).value;
                || (r in db.store.work.runs && StatusIn(db.store, r) != InProgress)
                || (result.Err? && executor.calls > 0 && executor.provider(executor.calls - 1).Threw?
                    && !NonBlank(executor.provider(executor.calls - 1).message))
    {
      hide InvExcept, CompanyGoesOn, NonBlank, LeaseFor, NextCandidate, MoveRun, LeasesGoOn;
      ghost var st := db.store;
      ghost var s := Setting({}, homes, now, dispatcher.leaseService.leaseTtlMs);
      NothingGoesOn(st);
      var chosen := dispatcher.DispatchNext(createdBy, now);
      if chosen.None? {
        return Ok(None);
      }
      var r := chosen.value;
      LeasedFor(st, r, createdBy, s);
      ghost var leased := db.store;
      LeaseIdIsFresh(leased, {});
      var assignee := db.store.work.runs[r].assignee;
      if assignee !in homes {
        dispatcher.leaseService.FailPendingLease(r, UNRESOLVED, now);
        DispatchFails(st, createdBy, s);
        return Err(UNRESOLVED);
      }
      var _ := dispatcher.leaseService.AcknowledgeWorkRunStart(r, assignee, now);
      ghost var taken := db.store;
      TakenIsInOrder(leased, r, now);
      CompanyGoesOnTransitive(st, leased, taken);
      var execution := executor.StartWorkRunExecution(r, assignee);
      GoingOnKeepsRun(taken, db.store, r);
      CompanyGoesOnTransitive(st, taken, db.store);
      result := if execution.Ok? then Ok(Some(r)) else Err(execution.error);
    }
  }

  function ChosenAssignee(st: Store): string
    requires NextCandidate(st).Some?
  {
    st.work.runs[NextCandidate(st).value].assignee
  }

  lemma LeasedFor(st: Store, r: Id, createdBy: string, s: Setting)
    requires Inv(st) && IsCandidate(st, r)
    ensures var leased := LeaseFor(st, r, createdBy, s);
            && Inv(leased) && CompanyGoesOn(st, leased) && LatestIs(leased, r, {Pending})
            && r in leased.work.runs && leased.work.runs[r] == st.work.runs[r] && leased.work.runs[r].status == Queued
            && leased == LeaseFor(st, r, createdBy, Setting({}, {}, s.now, s.leaseTtl))
  {
    hide InvExcept, CompanyGoesOn;
    LeaseForKeepsCompany(st, r, createdBy, s, {});
    LeaseIdIsFresh(st, {});
    LeaseForGoesOn(st, r, createdBy, s);
  }

  lemma DispatchFails(st: Store, createdBy: string, s: Setting)
    requires Inv(st) && NextCandidate(st).Some? && ChosenAssignee(st) !in s.homes
    ensures var st' := Dispatch(st, createdBy, s).store;
            && st' == FailPendingLease(LeaseFor(st, NextCandidate(st).value, createdBy, s), NextCandidate(st).value,
                                       UNRESOLVED, s.now)
            && Inv(st') && CompanyGoesOn(st, st')
  {
    hide InvExcept, CompanyGoesOn;
    DispatchKeepsCompany(st, createdBy, s, {});
    DispatchGoesOn(st, createdBy, s, {});
  }

  lemma TakenIsInOrder(st: Store, r: Id, now: Time)
    requires Inv(st) && LatestIs(st, r, {Pending}) && r in st.work.runs && st.work.runs[r].status == Queued
    ensures var taken := AcknowledgeLease(st, r, st.work.runs[r].assignee, now);
            Inv(taken) && CompanyGoesOn(st, taken) && NoLeaseWaits(taken, r) && taken.work == st.work
  {
    hide InvExcept, CompanyGoesOn, LeasesGoOn;
    TakenLeaseLeavesNone(st, r, now, {});
    AcknowledgingGoesOn(st, r, st.work.runs[r].assignee, now);
    LeasesGoOnKeeps(st, AcknowledgeLease(st, r, st.work.runs[r].assignee, now).leases, {});
    LeaseStepsAreCompanySteps(st, r, st.work.runs[r].assignee, "", now);
  }
}
