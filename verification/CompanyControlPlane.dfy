/** The control plane: one tick fires every due schedule, one dispatch recovers expired leases and sends
    the next run out. */
module CompanyControlPlane {
  import opened Prelude
  import opened WorkDomain
  import opened WorkOperations
  import opened Listings
  import opened WorkInvariants
  import opened SchedulesKept
  import opened BooksKept
  import opened WorkHistory
  import opened WorkRepository
  import Service = WorkService
  import opened Company
  import opened CompanyInvariants
  import opened CompanyKept
  import opened CompanyHistory
  import opened CompanyTheorems
  import opened CompanyDatabase
  import opened WorkDispatchLease
  import opened WorkDispatch

  predicate IsDue(w: Tables, s: Id, now: Time) {
    && s in w.schedules && w.schedules[s].status == Enabled
    && w.schedules[s].nextRunAt.Some? && w.schedules[s].nextRunAt.value <= now
  }

  /** The order in which due schedules fire. */
  predicate FiresBefore(w: Tables, a: Id, b: Id)
    requires a in w.schedules && b in w.schedules && w.schedules[a].nextRunAt.Some? && w.schedules[b].nextRunAt.Some?
  {
    var x, y := w.schedules[a].nextRunAt.value, w.schedules[b].nextRunAt.value;
    x < y || (x == y && a < b)
  }

  ghost predicate InFiringOrder(w: Tables, ids: seq<Id>, now: Time) {
    && (forall i :: 0 <= i < |ids| ==> IsDue(w, ids[i], now))
    && (forall i, j :: 0 <= i < j < |ids| ==> FiresBefore(w, ids[i], ids[j]))
  }

  /** The first of the due schedules, in firing order, at most `limit` of them. */
  ghost predicate IsDueListing(w: Tables, ids: seq<Id>, limit: nat, now: Time) {
    && InFiringOrder(w, ids, now) && |ids| <= limit
    && forall s :: IsDue(w, s, now) && s !in ids ==> |ids| == limit && forall i :: 0 <= i < |ids| ==>
      FiresBefore(w, ids[i], s)
  }

  /** The schedule's owner can take the run. */
  predicate OwnerIsThere(w: Tables, s: Id, directory: set<string>) {
    s in w.schedules && w.schedules[s].task in w.tasks && w.tasks[w.schedules[s].task].owner in directory
  }

  /** The run that stands for the schedule's slot, in its owner's queue. */
  ghost predicate StandsFor(w: Tables, s: Id, run: Run) {
    && s in w.schedules && w.schedules[s].task in w.tasks
    && run.task == w.schedules[s].task && run.scheduledFor == w.schedules[s].nextRunAt && IsFired(run)
    && run.status == Queued && run.assignee == w.tasks[w.schedules[s].task].owner
  }

  /** The schedules fired one after another. */
  function Fired(w: Tables, ids: seq<Id>, actor: string, directory: set<string>, now: Time): Tables {
    if ids == [] then w else CreateDueRun(Fired(w, ids[..|ids| - 1], actor, directory, now), ids[|ids| - 1], actor,
                                          directory, now).work
  }

  /** What firing some schedules has done: the books are in order and the other schedules wait as before. */
  lemma FiringLeavesTheOthers(w: Tables, s: Id, actor: string, directory: set<string>, now: Time)
    requires BooksOk(w) && IsDue(w, s, now) && NonBlank(actor)
    ensures var after := CreateDueRun(w, s, actor, directory, now);
            && BooksOk(after.work)
            && (after.result.Ok? <==> OwnerIsThere(w, s, directory))
            && (after.result.Ok? ==>
                  && after.result.value == DueRun(w.next, true) && w.next in after.work.runs && w.next < after.work.next
                  && after.work.runs == w.runs[w.next := after.work.runs[w.next]]
                  && StandsFor(w, s, after.work.runs[w.next]))
            && (after.result.Err? ==> after.result.error == AssigneeUnavailable && after.work == w)
            && after.work.schedules.Keys == w.schedules.Keys
            && (forall q :: q in w.schedules && q != s ==> after.work.schedules[q] == w.schedules[q])
            && after.work.tasks == w.tasks
  {
    hide *;
    CreateDueRunKeepsBooks(w, s, actor, directory, now);
    BooksHaveGroups(w);
    FiringDecides(w, s, actor, directory, now);
    if CreateDueRun(w, s, actor, directory, now).result.Ok? {
      CreateDueRunEffect(w, s, actor, directory, now);
      FiredRunStandsFor(w, s, actor, directory, now);
    } else {
      FailedFiringChangesNothing(w, s, actor, directory, now);
    }
  }

  lemma FiredRunStandsFor(w: Tables, s: Id, actor: string, directory: set<string>, now: Time)
    requires RefsOk(w) && SchedulesOk(w) && CreateDueRun(w, s, actor, directory, now).result.Ok?
    ensures var after := CreateDueRun(w, s, actor, directory, now).work;
            w.next in after.runs && w.next < after.next && StandsFor(w, s, after.runs[w.next])
  {
    hide CreateDueRun, RefsOk, SchedulesOk, IsFired;
    CreateDueRunEffect(w, s, actor, directory, now);
  }

  lemma FiringDecides(w: Tables, s: Id, actor: string, directory: set<string>, now: Time)
    requires RefsOk(w) && SchedulesOk(w) && IsDue(w, s, now) && NonBlank(actor)
    ensures var after := CreateDueRun(w, s, actor, directory, now);
            && (after.result.Ok? <==> OwnerIsThere(w, s, directory))
            && (after.result.Ok? ==> after.result.value == DueRun(w.next, true))
            && (after.result.Err? ==> after.result.error == AssigneeUnavailable)
  {
    SlotFree(w, s);
    hide SchedulesOk, AdvanceSchedule, FirstFilling, RunIdsOf, ScheduleOf;
  }

  /** The first |created| of the due schedules have fired, each for the run of its own slot; all others
      are as they were. */
  ghost predicate HaveFired(w: Tables, w': Tables, due: seq<Id>, created: seq<Id>) {
    && |created| <= |due| && w.next <= w'.next && w'.tasks == w.tasks && w'.schedules.Keys == w.schedules.Keys
    && (forall s :: s in w.schedules && s !in due[..|created|] ==> w'.schedules[s] == w.schedules[s])
    && (forall r :: r in w.runs ==> r in w'.runs && w'.runs[r] == w.runs[r])
    && (forall r :: r in w'.runs ==> r in w.runs || r in created)
    && (forall i :: 0 <= i < |created| ==>
                      && w.next <= created[i] < w'.next && created[i] in w'.runs
                      && StandsFor(w, due[i], w'.runs[created[i]]))
    && (forall i, j :: 0 <= i < j < |created| ==> created[i] < created[j])
  }

  lemma DueSchedulesDiffer(w: Tables, ids: seq<Id>, limit: nat, now: Time)
    requires IsDueListing(w, ids, limit, now)
    ensures forall i :: 0 <= i < |ids| ==> IsDue(w, ids[i], now)
    ensures forall i, j :: 0 <= i < j < |ids| ==> ids[i] != ids[j]
  {
  }

  lemma NothingHasFired(w: Tables, due: seq<Id>)
    ensures HaveFired(w, w, due, [])
  {
  }

  /** One more schedule of the list fires, or its owner is not available. */
  lemma FiresNext(w: Tables, w': Tables, due: seq<Id>, created: seq<Id>, actor: string, directory: set<string>,
                  now: Time)
    requires BooksOk(w') && NonBlank(actor) && HaveFired(w, w', due, created) && |created| < |due|
    requires forall i :: 0 <= i < |due| ==> IsDue(w, due[i], now)
    requires forall i, j :: 0 <= i < j < |due| ==> due[i] != due[j]
    ensures var after := CreateDueRun(w', due[|created|], actor, directory, now);
            && (after.result.Ok? <==> OwnerIsThere(w, due[|created|], directory))
            && (after.result.Ok? ==>
                  after.result.value == DueRun(w'.next, true) && HaveFired(w, after.work, due, created + [w'.next]))
            && (after.result.Err? ==> after.result.error == AssigneeUnavailable && after.work == w')
  {
    hide BooksOk, CreateDueRun, NonBlank, IsFired;
    var s := due[|created|];
    assert s !in due[..|created|];
    FiringLeavesTheOthers(w', s, actor, directory, now);
    RunsAreFresh(w');
    assert due[..|created| + 1] == due[..|created|] + [s];
  }

  lemma InsertedFiresInOrder(w: Tables, ids: seq<Id>, i: nat, s: Id, now: Time)
    requires InFiringOrder(w, ids, now) && IsDue(w, s, now) && s !in ids && i <= |ids|
    requires (forall j :: 0 <= j < i ==> FiresBefore(w, ids[j], s)) && (i < |ids| ==> !FiresBefore(w, ids[i], s))
    ensures InFiringOrder(w, ids[..i] + [s] + ids[i..], now)
    ensures forall k :: k in ids[..i] + [s] + ids[i..] <==> k in ids || k == s
  {
    var ids' := ids[..i] + [s] + ids[i..];
    assert forall j :: 0 <= j < |ids'| ==> ids'[j] == if j < i then ids[j] else if j == i then s else ids[j - 1];
    assert forall j :: i <= j < |ids| ==> FiresBefore(w, s, ids[j]);
    assert ids == ids[..i] + ids[i..];
  }

  class CompanyControlPlane {
    const db: Database
    const workService: Service.WorkService
    const leaseService: WorkDispatchLeaseService
    const runner: WorkDispatchRunner

    constructor (workService: Service.WorkService, leaseService: WorkDispatchLeaseService, runner: WorkDispatchRunner)
      requires workService.db == leaseService.db == runner.db
      ensures this.workService == workService && this.leaseService == leaseService && this.runner == runner
              && db == runner.db
    {
      this.db := runner.db;
      this.workService := workService;
      this.leaseService := leaseService;
      this.runner := runner;
    }

    ghost predicate Wired() {
      workService.db == db && leaseService.db == db && runner.db == db && runner.Wired()
    }

    /** The due schedules in firing order, at most `limit` of them. */
    method ListDueWorkSchedules(limit: nat, now: Time) returns (ids: seq<Id>)
      ensures IsDueListing(db.store.work, ids, limit, now)
    {
      ghost var w := db.store.work;
      var repository := new Repository(db.store.work);
      SchedulesAreTheTable(repository);
      var rows := repository.schedules;
      ids := [];
      var index := 0;
      while index < |rows|
        invariant 0 <= index <= |rows| && InFiringOrder(w, ids, now)
        invariant forall s :: s in ids <==> IsDue(w, s, now) && exists i :: 0 <= i < index && rows[i].id == s
      {
        var entry := rows[index];
        if entry.row.status == Enabled && entry.row.nextRunAt.Some? && entry.row.nextRunAt.value <= now {
          assert forall i :: 0 <= i < index ==> rows[i].id != entry.id;
          ids := InsertByDueTime(ids, entry.id, now);
        }
        index := index + 1;
      }
      if |ids| > limit {
        ghost var all := ids;
        ids := ids[..limit];
        forall s | IsDue(w, s, now) && s !in ids ensures forall i :: 0 <= i < |ids| ==> FiresBefore(w, ids[i], s) {
          var j :| 0 <= j < |all| && all[j] == s;
          assert j >= limit;
        }
      }
    }

    /** The listing with one more schedule in its place. */
    method InsertByDueTime(ids: seq<Id>, s: Id, now: Time) returns (ids': seq<Id>)
      requires InFiringOrder(db.store.work, ids, now) && IsDue(db.store.work, s, now) && s !in ids
      ensures InFiringOrder(db.store.work, ids', now) && forall k :: k in ids' <==> k in ids || k == s
    {
      var i := 0;
      while i < |ids| && FiresBefore(db.store.work, ids[i], s)
        invariant 0 <= i <= |ids|
        invariant forall j :: 0 <= j < i ==> FiresBefore(db.store.work, ids[j], s)
      {
        i := i + 1;
      }
      ids' := ids[..i] + [s] + ids[i..];
      InsertedFiresInOrder(db.store.work, ids, i, s, now);
    }

    /** A tick fires the schedules it finds due, one after another, up to the first whose owner is not
        available: each for a new run of its own, and those from that one on are left as they were. */
    method TickDueSchedules(createdBy: string, limit: Option<nat>, directory: set<string>, now: Time)
      returns (due: seq<Id>, created: seq<Id>, reused: seq<Id>, failure: Option<Error>)
      requires Wired() && Inv(db.store) && NonBlank(createdBy)
      modifies db
      ensures Inv(db.store) && CompanyGoesOn(old(db.store), db.store)
      ensures IsDueListing(old(db.store).work, due, if limit.Some? then limit.value else 50, now)
      ensures |created| <= |due| && reused == []
      ensures forall i :: 0 <= i < |created| ==> OwnerIsThere(old(db.store).work, due[i], directory)
      ensures |created| < |due| ==> !OwnerIsThere(old(db.store).work, due[|created|], directory)
      ensures failure == if |created| < |due| then Some(AssigneeUnavailable) else None
      ensures HaveFired(old(db.store).work, db.store.work, due, created)
      ensures db.store == old(db.store).(work := Fired(old(db.store).work, due[..|created|], createdBy, directory, now))
    {
      hide InvExcept, BooksOk, IsDueListing, CreateDueRun, CompanyGoesOn, HaveFired, OwnerIsThere;
      ghost var st, w := db.store, db.store.work;
      due := ListDueWorkSchedules(if limit.Some? then limit.value else 50, now);
      DueSchedulesDiffer(w, due, if limit.Some? then limit.value else 50, now);
      created, reused, failure := [], [], None;
      NothingGoesOn(st);
      NothingHasFired(w, due);
      var index := 0;
      while index < |due|
        invariant 0 <= index <= |due| && |created| == index && reused == [] && failure.None?
        invariant Inv(db.store) && CompanyGoesOn(st, db.store)
        invariant db.store == st.(work := Fired(w, due[..index], createdBy, directory, now))
        invariant HaveFired(w, db.store.work, due, created)
        invariant forall i :: 0 <= i < index ==> OwnerIsThere(w, due[i], directory)
      {
        var s := due[index];
        ghost var before := db.store;
        BooksOfCompany(before, {});
        CreateDueRunKeepsCompany(before, s, createdBy, Setting(directory, {}, now, 0), {});
        CreateDueRunGoesOn(before.work, s, createdBy, directory, now);
        OnlyWorkGoesOn(before, CreateDueRun(before.work, s, createdBy, directory, now).work);
        FiresNext(w, before.work, due, created, createdBy, directory, now);
        assert due[..index + 1][..index] == due[..index];
        var fired := workService.CreateDueWorkRun(s, createdBy, directory, now);
        CompanyGoesOnTransitive(st, before, db.store);
        if fired.Err? {
          failure := Some(fired.error);
          return;
        }
        var run, isNew := fired.value.run, fired.value.created;
        created := if isNew then created + [run] else created;
        reused := if isNew then reused else reused + [run];
        index := index + 1;
      }
      assert due[..index] == due;
    }

    /** First expired leases are given up, so that their runs can be retried; then the next run goes out, and
        the dispatch runner's promises hold from there. */
    method DispatchNext(createdBy: string, homes: set<string>, now: Time)
      returns (expired: seq<Id>, result: Result<Option<Id>, string>)
      requires Wired() && Inv(db.store)
      modifies db, runner.executor
      ensures Inv(db.store) && CompanyGoesOn(old(db.store), db.store)
      ensures forall l :: l in expired <==> l in old(db.store).leases && HasExpired(old(db.store).leases[l], now)
      ensures Inv(ExpireLeases(old(db.store), now))
      ensures WentOut(ExpireLeases(old(db.store), now), db.store, createdBy, homes, now, old(runner.executor.calls),
                      result)
    {
      hide InvExcept, CompanyGoesOn, ExpireLeases, NextCandidate, NonBlank, Dispatch;
      ghost var st := db.store;
      expired := leaseService.MarkExpiredPendingLeasesFailed(now);
      ExpireLeasesKeepsCompany(st, Setting({}, {}, now, 0), {});
      LeaseStepsAreCompanySteps(st, 0, "", "", now);
      ghost var st1 := db.store;
      result := runner.DispatchNextToWorkRunSession(createdBy, homes, now);
      CompanyGoesOnTransitive(st, st1, db.store);
    }

    /** What sending out the next run comes to: nothing without a candidate, a failed lease without its
        employee, and otherwise an execution that has settled, unless it has two turns or more and a
        provider's error without message ended it. */
    ghost predicate WentOut(st: Store, st': Store, createdBy: string, homes: set<string>, now: Time, calls: nat,
                            result: Result<Option<Id>, string>)
      reads this, runner, runner.executor, runner.dispatcher, runner.dispatcher.leaseService
    {
      match NextCandidate(st)
      case None => result == Ok(None) && st' == st && runner.executor.calls == calls
      case Some(r) =>
        if st.work.runs[r].assignee !in homes then
          && result.Err? && runner.executor.calls == calls
          && st' == Dispatch(st, createdBy, Setting({}, homes, now, runner.dispatcher.leaseService.leaseTtlMs)).store
        else
          && r in st'.work.runs && (result.Ok? ==> result.value == Some(r))
          && (runner.executor.maxTurns >= 2 && st'.work.runs[r].status == InProgress ==> EndedWithoutMessage(result))
    }

    ghost predicate EndedWithoutMessage(result: Result<Option<Id>, string>)
      reads this, runner, runner.executor
    {
      && result.Err? && runner.executor.calls > 0 && runner.executor.provider(runner.executor.calls - 1).Threw?
      && !NonBlank(runner.executor.provider(runner.executor.calls - 1).message)
    }

    /** One round: the due schedules fire, and then the next run goes out from there; a tick that is stopped
        sends nothing out. */
    method RunOnce(createdBy: string, scheduleLimit: Option<nat>, directory: set<string>, homes: set<string>, now: Time)
      returns (due: seq<Id>, created: seq<Id>, result: Result<Option<Id>, string>, failure: Option<Error>)
      requires Wired() && Inv(db.store) && NonBlank(createdBy)
      modifies db, runner.executor
      ensures Inv(db.store) && CompanyGoesOn(old(db.store), db.store) && |created| <= |due|
      ensures IsDueListing(old(db.store).work, due, if scheduleLimit.Some? then scheduleLimit.value else 50, now)
      ensures failure.None? <==> forall i :: 0 <= i < |due| ==> OwnerIsThere(old(db.store).work, due[i], directory)
      ensures var ticked := old(db.store).(work := Fired(old(db.store).work, due[..|created|], createdBy, directory,
                                                         now));
              && HaveFired(old(db.store).work, ticked.work, due, created)
              && (if failure.Some? then db.store == ticked && runner.executor.calls == old(runner.executor.calls)
                  else |created| == |due|
                       && WentOut(ExpireLeases(ticked, now), db.store, createdBy, homes, now,
                                  old(runner.executor.calls), result))
    {
      hide InvExcept, CompanyGoesOn, IsDueListing, HaveFired, Fired, ExpireLeases, OwnerIsThere, WentOut;
      ghost var st := db.store;
      var reused;
      due, created, reused, failure := TickDueSchedules(createdBy, scheduleLimit, directory, now);
      ghost var ticked := db.store;
      result := Ok(None);
      if failure.None? {
        var expired;
        expired, result := DispatchNext(createdBy, homes, now);
        CompanyGoesOnTransitive(st, ticked, db.store);
      }
    }
  }

  // ---------------------------------------------------------------- one owner holds the others back

  /** A schedule whose owner is there does not fire while one before it has an owner who is not. */
  method AwayOwnerHoldsBack(plane: CompanyControlPlane, a: Id, b: Id, createdBy: string, limit: Option<nat>,
                            directory: set<string>, now: Time)
    requires plane.Wired() && Inv(plane.db.store) && NonBlank(createdBy)
    requires HoldsBack(plane.db.store.work, a, b, directory, now)
    modifies plane.db
    ensures IsDue(plane.db.store.work, b, now)
            && plane.db.store.work.schedules[b] == old(plane.db.store).work.schedules[b]
  {
    hide InvExcept, CompanyGoesOn, Fired, OwnerIsThere;
    ghost var w := plane.db.store.work;
    var due, created, reused, failure := plane.TickDueSchedules(createdBy, limit, directory, now);
    if b in due { EarlierIsListed(w, due, if limit.Some? then limit.value else 50, now, a, b); }
  }

  /** Such states are reached: A and D each have work scheduled, A's comes first, and A is away. */
  lemma HoldingBackHappens()
    ensures exists st, a, b :: Reachable(st) && HoldsBack(st.work, a, b, {"D"}, 1)
  {
    hide Reachable, Step, CreateWork, BooksOk, InvExcept, Appointment;
    var first, second := CreateWorkOp(Appointment("A", 0)), CreateWorkOp(Appointment("D", 1));
    NewCompanyIsReachable();
    AppointmentIsAStep(NEW_COMPANY, "A", 0);
    AppointmentAddsASchedule(NO_WORK, "A", 0);
    var st1 := Step(NEW_COMPANY, first, DAY);
    ReachableStep(NEW_COMPANY, first, DAY);
    ReachableIsInOrder(st1);
    IdsAreFresh(st1.work);
    AppointmentIsAStep(st1, "D", 1);
    AppointmentAddsASchedule(st1.work, "D", 1);
    var st := Step(st1, second, DAY);
    ReachableStep(st1, second, DAY);
    assert "A"[0] != "D"[0];
    assert Reachable(st) && HoldsBack(st.work, 1, st1.work.next + 1, {"D"}, 1);
  }

  const DAY := Setting({"A", "D"}, {}, 0, 1)

  /** Work scheduled once for its owner. */
  function Appointment(owner: string, at: Time): CreateInput {
    CreateInput("T", None, "B", owner, Manual, "S", None, None, "C", ScheduledOnce, Some(at), None, None, map[])
  }

  lemma AppointmentIsAStep(st: Store, owner: string, at: Time)
    ensures Proper(st, CreateWorkOp(Appointment(owner, at)))
    ensures Step(st, CreateWorkOp(Appointment(owner, at)), DAY) ==
              st.(work := CreateWork(st.work, Appointment(owner, at), {"A", "D"}, 0).work)
  {
    hide CreateWork;
  }

  lemma AppointmentAddsASchedule(w: Tables, owner: string, at: Time)
    requires owner in {"A", "D"} && w.next !in w.tasks && w.next + 1 !in w.schedules
    ensures var w' := CreateWork(w, Appointment(owner, at), {"A", "D"}, 0).work;
            var t, s := w.next, w.next + 1;
            && t in w'.tasks && w'.tasks == w.tasks[t := w'.tasks[t]] && w'.tasks[t].owner == owner
            && s in w'.schedules && w'.schedules == w.schedules[s := w'.schedules[s]] && w'.schedules[s].task == t
            && w'.schedules[s].status == Enabled && w'.schedules[s].nextRunAt == Some(at) && s < w'.next
  {
    forall text | text in {"A", "B", "C", "D", "S", "T"} ensures Normalized(Some(text)) == Some(text) {
      LetterIsText(text);
    }
    assert Normalized(None).None?;
    hide Normalized;
  }

  lemma IdsAreFresh(w: Tables)
    requires BooksOk(w)
    ensures w.next !in w.tasks && forall s :: s in w.schedules ==> s < w.next
  {
    hide *;
    BooksHaveGroups(w);
    RefsAreFresh(w);
  }

  lemma RefsAreFresh(w: Tables)
    requires RefsOk(w)
    ensures w.next !in w.tasks && forall s :: s in w.schedules ==> s < w.next
  {
  }

  /** What fires before a listed schedule is listed before it. */
  lemma EarlierIsListed(w: Tables, due: seq<Id>, limit: nat, now: Time, a: Id, b: Id)
    requires IsDueListing(w, due, limit, now) && IsDue(w, a, now) && b in due && IsDue(w, b, now)
             && FiresBefore(w, a, b)
    ensures exists j, i :: 0 <= j < i < |due| && due[j] == a && due[i] == b
    ensures forall i, j :: 0 <= i < |due| && 0 <= j < |due| && due[i] == b && due[j] == a ==> j < i
  {
  }

  /** Both are due, a fires first, and only b's owner is there. */
  ghost predicate HoldsBack(w: Tables, a: Id, b: Id, directory: set<string>, now: Time) {
    IsDue(w, a, now) && IsDue(w, b, now) && FiresBefore(w, a, b) && !OwnerIsThere(w, a, directory)
    && OwnerIsThere(w, b, directory)
  }

  lemma SchedulesAreTheTable(repository: Repository)
    requires repository.Valid()
    ensures forall i :: 0 <= i < |repository.schedules| ==>
                          var entry := repository.schedules[i];
                          entry.id in repository.View().schedules && repository.View().schedules[entry.id] == entry.row
    ensures forall s :: s in repository.View().schedules ==>
              exists i :: 0 <= i < |repository.schedules| && repository.schedules[i].id == s
  {
    forall i | 0 <= i < |repository.schedules|
      ensures var entry := repository.schedules[i];
              entry.id in repository.View().schedules && repository.View().schedules[entry.id] == entry.row
    {
      ToMapFirst(repository.schedules, i);
    }
    forall s | s in repository.View().schedules
      ensures exists i :: 0 <= i < |repository.schedules| && repository.schedules[i].id == s
    {
      ToMapKeys(repository.schedules, s);
    }
  }
}
