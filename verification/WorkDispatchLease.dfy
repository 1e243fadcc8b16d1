/** Dispatch leases: their write-behind repository, and the service that creates, acknowledges, expires,
    fails and cancels them. */
module WorkDispatchLease {
  import opened Prelude
  import opened WorkDomain
  import opened WorkOperations
  import opened WorkRepository
  import opened Company
  import opened CompanyInvariants
  import opened CompanyDatabase

  // ---------------------------------------------------------------- statements

  /** An INSERT writes the whole row; an UPDATE writes the status, the three times and the reason. */
  datatype LeaseStatement = LeaseInsert(id: Id, lease: Lease) | LeaseUpdate(id: Id, lease: Lease)

  function UpdatedLeaseRow(row: Lease, lease: Lease): Lease {
    row.(status := lease.status, acknowledgedAt := lease.acknowledgedAt, failedAt := lease.failedAt,
         canceledAt := lease.canceledAt, failureReason := lease.failureReason)
  }

  function ApplyLease(leases: map<Id, Lease>, statement: LeaseStatement): map<Id, Lease> {
    match statement
    case LeaseInsert(id, lease) => leases[id := lease]
    case LeaseUpdate(id, lease) => if id in leases then leases[id := UpdatedLeaseRow(leases[id], lease)] else leases
  }

  function ApplyLeases(leases: map<Id, Lease>, statements: seq<LeaseStatement>): map<Id, Lease> {
    if statements == [] then leases
    else ApplyLease(ApplyLeases(leases, statements[..|statements| - 1]), statements[|statements| - 1])
  }

  lemma ApplyOneMoreLease(leases: map<Id, Lease>, statements: seq<LeaseStatement>, last: LeaseStatement)
    ensures ApplyLeases(leases, statements + [last]) == ApplyLease(ApplyLeases(leases, statements), last)
  {
    assert (statements + [last])[..|statements|] == statements;
  }

  predicate SameIdentity(a: Lease, b: Lease) {
    && a.run == b.run && a.assignee == b.assignee && a.dispatchedAt == b.dispatchedAt && a.expiresAt == b.expiresAt
    && a.retryOf == b.retryOf && a.createdBy == b.createdBy && a.source == b.source
  }

  lemma UpdateWritesTheRest(leases: map<Id, Lease>, id: Id, lease: Lease)
    requires id in leases
    ensures ApplyLease(leases, LeaseUpdate(id, lease)) == leases[id := lease] <==> SameIdentity(leases[id], lease)
  {
    var written := leases[id := UpdatedLeaseRow(leases[id], lease)];
    if written == leases[id := lease] { assert written[id] == lease; }
  }

  // ---------------------------------------------------------------- the repository

  class LeaseRepository {
    var leases: seq<Entry<Id, Lease>>
    var pending: seq<LeaseStatement>
    ghost var loaded: map<Id, Lease>

    ghost function View(): map<Id, Lease>
      reads this
    {
      ToMap(leases)
    }

    ghost predicate Valid()
      reads this
    {
      UniqueIds(leases)
    }

    ghost predicate Synced()
      reads this
    {
      ApplyLeases(loaded, pending) == View()
    }

    constructor (table: map<Id, Lease>)
      ensures Valid() && Synced() && View() == table && loaded == table && pending == []
    {
      loaded := table;
      pending := [];
      new;
      leases := Load(table);
    }

    method CreateLease(id: Id, lease: Lease)
      requires Valid() && Synced()
      modifies this`leases, this`pending
      ensures Valid() && Synced() && View() == old(View())[id := lease]
    {
      hide ToMap, ApplyLeases;
      leases := UpsertById(leases, id, lease);
      ApplyOneMoreLease(loaded, pending, LeaseInsert(id, lease));
      pending := pending + [LeaseInsert(id, lease)];
    }

    method UpdateLease(id: Id, lease: Lease)
      requires Valid() && Synced() && id in View()
      modifies this`leases, this`pending
      ensures Valid() && View() == old(View())[id := lease]
      ensures Synced() <==> SameIdentity(old(View())[id], lease)
    {
      hide ToMap, ApplyLeases, UniqueIds;
      ghost var before := View();
      leases := UpsertById(leases, id, lease);
      ApplyOneMoreLease(loaded, pending, LeaseUpdate(id, lease));
      UpdateWritesTheRest(before, id, lease);
      pending := pending + [LeaseUpdate(id, lease)];
    }

    method Row(id: Id) returns (lease: Lease)
      requires id in View()
      ensures lease == View()[id]
    {
      var found := Find(leases, id);
      lease := found.value;
    }

    /** The newest lease of the run: the first after filtering and sorting newest first. */
    method GetLatestLeaseForWorkRun(r: Id) returns (latest: Option<Entry<Id, Lease>>)
      requires Valid()
      ensures latest.Some? ==>
                latest.value.id in View() && View()[latest.value.id] == latest.value.row && latest.value.row.run == r
      ensures latest.Some? ==> IsLatest(View(), latest.value.id)
      ensures latest.None? ==> forall l :: l in View() ==> View()[l].run != r
    {
      latest := None;
      var index := 0;
      while index < |leases|
        invariant 0 <= index <= |leases|
        invariant latest.Some? ==> latest.value in leases[..index] && latest.value.row.run == r
        invariant forall i :: 0 <= i < index && leases[i].row.run == r ==>
                    latest.Some? && leases[i].id <= latest.value.id
      {
        var entry := leases[index];
        if entry.row.run == r && (latest.None? || latest.value.id < entry.id) {
          latest := Some(entry);
        }
        index := index + 1;
      }
      if latest.Some? {
        var i :| 0 <= i < |leases| && leases[i] == latest.value;
        ToMapFirst(leases, i);
      }
      forall l | l in View() && View()[l].run == r ensures latest.Some? && l <= latest.value.id {
        ToMapKeys(leases, l);
        var i :| 0 <= i < |leases| && leases[i].id == l;
        ToMapFirst(leases, i);
      }
    }

    method Flush(table: map<Id, Lease>) returns (written: map<Id, Lease>)
      ensures written == ApplyLeases(table, pending)
    {
      written := table;
      var index := 0;
      while index < |pending|
        invariant 0 <= index <= |pending|
        invariant written == ApplyLeases(table, pending[..index])
      {
        ApplyOneMoreLease(table, pending[..index], pending[index]);
        assert pending[..index + 1] == pending[..index] + [pending[index]];
        written := ApplyLease(written, pending[index]);
        index := index + 1;
      }
      assert pending[..index] == pending;
    }
  }

  // ---------------------------------------------------------------- the service

  ghost predicate LeaseIdsAreOld(st: Store) {
    forall l :: l in st.leases ==> l < st.work.next
  }

  /** The repository and the specification find the same latest lease. */
  lemma FoundIsLatest(st: Store, r: Id, latest: Option<Id>)
    requires LeaseIdsAreOld(st)
    requires latest.Some? ==>
               latest.value in st.leases && st.leases[latest.value].run == r && IsLatest(st.leases, latest.value)
    requires latest.None? ==> forall l :: l in st.leases ==> st.leases[l].run != r
    ensures Latest(st, r) == latest
  {
    if latest.Some? { LatestFound(st, latest.value); }
  }

  class WorkDispatchLeaseService {
    const db: Database
    const leaseTtlMs: int

    constructor (db: Database, leaseTtlMs: Option<int>)
      ensures this.db == db && this.leaseTtlMs == if leaseTtlMs.Some? then leaseTtlMs.value else 120000
    {
      this.db := db;
      this.leaseTtlMs := if leaseTtlMs.Some? then leaseTtlMs.value else 120000;
    }

    method Close(repository: LeaseRepository)
      requires repository.Synced() && repository.loaded == db.store.leases
      modifies db
      ensures db.store == old(db.store).(leases := repository.View())
    {
      var written := repository.Flush(db.store.leases);
      db.store := db.store.(leases := written);
    }

    method LatestLeaseOf(repository: LeaseRepository, r: Id) returns (latest: Option<Entry<Id, Lease>>)
      requires repository.Valid() && repository.View() == db.store.leases && LeaseIdsAreOld(db.store)
      ensures latest.Some? <==> Latest(db.store, r).Some?
      ensures latest.Some? ==>
                Latest(db.store, r) == Some(latest.value.id) && latest.value.row == db.store.leases[latest.value.id]
    {
      latest := repository.GetLatestLeaseForWorkRun(r);
      if latest.Some? {
        FoundIsLatest(db.store, r, Some(latest.value.id));
      } else {
        assert forall l :: l in repository.View() ==> repository.View()[l].run != r;
        FoundIsLatest(db.store, r, None);
      }
    }

    method CreatePendingLease(r: Id, assignee: string, createdBy: string, retryOf: Option<Id>, source: LeaseSource,
                              now: Time)
      returns (result: Result<Id, Error>)
      requires LeaseIdsAreOld(db.store)
      modifies db
      ensures Effect(db.store, result)
              == CreateLease(old(db.store),
                             PendingLease(r, assignee, createdBy, retryOf, source, Setting({}, {}, now, leaseTtlMs)))
    {
      hide LeaseRepository.View, LeaseRepository.Valid, LeaseRepository.Synced, Latest;
      var repository := new LeaseRepository(db.store.leases);
      var latest := LatestLeaseOf(repository, r);
      if latest.Some? && latest.value.row.status == Pending {
        return Err(LeaseIsPending);
      }
      var id := db.store.work.next;
      repository.CreateLease(id, Lease(r, assignee, Pending, now, now + leaseTtlMs, None, None, None, None, retryOf,
                                       createdBy, source));
      Close(repository);
      db.store := db.store.(work := db.store.work.(next := id + 1));
      return Ok(id);
    }

    method AcknowledgeWorkRunStart(r: Id, assignee: string, now: Time) returns (updated: Option<Lease>)
      requires LeaseIdsAreOld(db.store)
      modifies db
      ensures db.store == AcknowledgeLease(old(db.store), r, assignee, now)
      ensures updated.None? ==> db.store == old(db.store)
    {
      hide LeaseRepository.View, LeaseRepository.Valid, LeaseRepository.Synced, Latest;
      var repository := new LeaseRepository(db.store.leases);
      var latest := LatestLeaseOf(repository, r);
      if latest.None? || latest.value.row.status != Pending || latest.value.row.assignee != assignee {
        return None;
      }
      updated := Some(AcknowledgedLease(latest.value.row, now));
      repository.UpdateLease(latest.value.id, updated.value);
      Close(repository);
    }

    method FailPendingLease(r: Id, reason: string, now: Time)
      requires LeaseIdsAreOld(db.store)
      modifies db
      ensures db.store == Company.FailPendingLease(old(db.store), r, reason, now)
    {
      hide LeaseRepository.View, LeaseRepository.Valid, LeaseRepository.Synced, Latest;
      var repository := new LeaseRepository(db.store.leases);
      var latest := LatestLeaseOf(repository, r);
      if latest.None? || latest.value.row.status != Pending {
        return;
      }
      repository.UpdateLease(latest.value.id, FailedLease(latest.value.row, reason, now));
      Close(repository);
    }

    method CancelLatestLease(r: Id, reason: string, now: Time)
      requires LeaseIdsAreOld(db.store)
      modifies db
      ensures db.store == old(db.store).(leases := CancelLeases(old(db.store), {r}, reason, now))
    {
      hide LeaseRepository.View, LeaseRepository.Valid, LeaseRepository.Synced, Latest;
      var repository := new LeaseRepository(db.store.leases);
      var latest := LatestLeaseOf(repository, r);
      if latest.None? || (latest.value.row.status != Pending && latest.value.row.status != Acknowledged) {
        assert CancelLeases(db.store, {r}, reason, now) == db.store.leases;
        return;
      }
      repository.UpdateLease(latest.value.id, CanceledLease(latest.value.row, reason, now));
      Close(repository);
      assert db.store.leases == CancelLeases(old(db.store), {r}, reason, now);
    }

    /** Every pending lease whose time has come fails, and no other lease changes. */
    method MarkExpiredPendingLeasesFailed(now: Time) returns (expired: seq<Id>)
      modifies db
      ensures db.store == ExpireLeases(old(db.store), now)
      ensures forall l :: l in expired <==> l in old(db.store).leases && HasExpired(old(db.store).leases[l], now)
    {
      var repository := new LeaseRepository(db.store.leases);
      ghost var before := db.store.leases;
      expired := ListExpired(repository, now);
      hide LeaseRepository.View, LeaseRepository.Valid, LeaseRepository.Synced;
      var index := 0;
      while index < |expired|
        invariant 0 <= index <= |expired| && repository.Valid() && repository.Synced()
        invariant repository.loaded == db.store.leases == before && db.store == old(db.store)
        invariant repository.View() == ExpiredAmong(before, expired[..index], now)
      {
        var l := expired[index];
        assert l !in expired[..index];
        assert l in repository.View() && repository.View()[l] == before[l];
        var lease := repository.Row(l);
        repository.UpdateLease(l, FailedLease(lease, EXPIRED, now));
        assert forall k :: k in expired[..index + 1] <==> k in expired[..index] || k == l by {
          assert expired[..index + 1] == expired[..index] + [l];
        }
        index := index + 1;
      }
      assert expired[..index] == expired;
      Close(repository);
    }
  }

  predicate HasExpired(lease: Lease, now: Time) {
    lease.status == Pending && lease.expiresAt <= now
  }

  function ExpiredAmong(leases: map<Id, Lease>, ids: seq<Id>, now: Time): map<Id, Lease> {
    map l | l in leases :: if l in ids then FailedLease(leases[l], EXPIRED, now) else leases[l]
  }

  /** The pending leases that have run out, each once. */
  method ListExpired(repository: LeaseRepository, now: Time) returns (ids: seq<Id>)
    requires repository.Valid()
    ensures forall l :: l in ids <==>
                          && l in repository.View() && repository.View()[l].status == Pending
                          && repository.View()[l].expiresAt <= now
    ensures forall i, j :: 0 <= i < j < |ids| ==> ids[i] != ids[j]
  {
    ids := [];
    var index := 0;
    while index < |repository.leases|
      invariant 0 <= index <= |repository.leases|
      invariant forall l :: l in ids <==> exists i :: 0 <= i < index && repository.leases[i].id == l
                                                      && repository.leases[i].row.status == Pending
                                                      && repository.leases[i].row.expiresAt <= now
      invariant forall i, j :: 0 <= i < j < |ids| ==> ids[i] != ids[j]
    {
      var entry := repository.leases[index];
      if entry.row.status == Pending && entry.row.expiresAt <= now {
        assert forall i :: 0 <= i < index ==> repository.leases[i].id != entry.id;
        assert entry.id !in ids;
        ids := ids + [entry.id];
      }
      index := index + 1;
    }
    forall l
      ensures l in ids <==>
                && l in repository.View() && repository.View()[l].status == Pending
                && repository.View()[l].expiresAt <= now
    {
      if l in ids {
        var i :| 0 <= i < |repository.leases| && repository.leases[i].id == l;
        ToMapFirst(repository.leases, i);
      }
      if l in repository.View() {
        ToMapKeys(repository.leases, l);
        var i :| 0 <= i < |repository.leases| && repository.leases[i].id == l;
        ToMapFirst(repository.leases, i);
      }
    }
  }
}
