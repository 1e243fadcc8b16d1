/** The promises of the Work system, stated for every state that runs of the system reach. */
module CompanyTheorems {
  import opened Prelude
  import opened WorkDomain
  import opened WorkOperations
  import opened Listings
  import opened RunLog
  import opened WorkInvariants
  import opened RecordsKept
  import opened SchedulesKept
  import opened OneShotsKept
  import opened BooksKept
  import opened WorkEffects
  import opened WorkHistory
  import opened Company
  import opened CompanyInvariants
  import opened CompanyKept
  import opened CompanyHistory

  // ---------------------------------------------------------------- reachable states

  /** A state some run of the system reaches from a new company. */
  ghost predicate Reachable(st: Store) {
    exists turns :: AllProper(NEW_COMPANY, turns) && st == After(NEW_COMPANY, turns)
  }

  lemma ReachableIsInOrder(st: Store)
    requires Reachable(st)
    ensures Inv(st) && BooksOk(st.work)
  {
    hide InvExcept, Step, After, BooksOk;
    var turns :| AllProper(NEW_COMPANY, turns) && st == After(NEW_COMPANY, turns);
    NewCompanyIsInOrder();
    EveryReachableStateIsInOrder(NEW_COMPANY, turns);
    BooksOfCompany(st, {});
  }

  /** Every state that a further proper run leads to is reachable as well. */
  lemma ReachableGoesOn(st: Store, turns: seq<Turn>)
    requires Reachable(st) && AllProper(st, turns)
    ensures Reachable(After(st, turns)) && CompanyGoesOn(st, After(st, turns))
  {
    hide InvExcept, Step, CompanyGoesOn, Proper;
    var before :| AllProper(NEW_COMPANY, before) && st == After(NEW_COMPANY, before);
    AfterConcat(NEW_COMPANY, before, turns);
    ReachableIsInOrder(st);
    EveryRunGoesOn(st, turns);
  }

  lemma NewCompanyIsReachable()
    ensures Reachable(NEW_COMPANY)
  {
    assert AllProper(NEW_COMPANY, []) && NEW_COMPANY == After(NEW_COMPANY, []);
  }

  lemma ReachableStep(st: Store, op: Op, s: Setting)
    requires Reachable(st) && Proper(st, op)
    ensures Reachable(Step(st, op, s))
  {
    hide Reachable, Step, CompanyGoesOn;
    var turns := [Turn(op, s)];
    assert After(st, turns) == Step(st, op, s) by {
      assert turns[1..] == [];
    }
    ReachableGoesOn(st, turns);
  }

  lemma {:induction false} AfterConcat(st: Store, a: seq<Turn>, b: seq<Turn>)
    ensures After(st, a + b) == After(After(st, a), b)
    ensures AllProper(st, a + b) <==> AllProper(st, a) && AllProper(After(st, a), b)
    decreases |a|
  {
    hide Step, Proper;
    if a == [] {
      assert a + b == b;
    } else {
      assert (a + b)[0] == a[0] && (a + b)[1..] == a[1..] + b;
      AfterConcat(Step(st, a[0].op, a[0].setting), a[1..], b);
    }
  }

  // ---------------------------------------------------------------- one-shot tasks

  ghost predicate RunOf(w: Tables, r: Id, t: Id) {
    r in w.runs && w.runs[r].task == t
  }

  ghost predicate OpenRunOf(w: Tables, r: Id, t: Id) {
    RunOf(w, r, t) && !IsTerminal(w.runs[r].status)
  }

  /** Immediate and scheduled-once tasks: one open run at most, every run but the last failed, and the
      task's status tells how its last run ended. */
  lemma OneShotTasksAreSafe(st: Store, t: Id)
    requires Reachable(st) && t in st.work.tasks && IsOneShotTask(st.work, t)
    ensures forall q, r :: RunOf(st.work, q, t) && RunOf(st.work, r, t) && q < r ==> st.work.runs[q].status == Failed
    ensures forall q, r :: OpenRunOf(st.work, q, t) && OpenRunOf(st.work, r, t) ==> q == r
    ensures st.work.tasks[t].status == Completed ==>
              exists r :: RunOf(st.work, r, t) && st.work.runs[r].status == Done && forall q :: RunOf(st.work, q, t) ==>
                q <= r
    ensures st.work.tasks[t].status in {TaskCanceled, Archived} ==>
              forall r :: RunOf(st.work, r, t) ==> IsTerminal(st.work.runs[r].status)
  {
    hide Reachable, InvExcept;
    ReachableIsInOrder(st);
    OneShotOfBooks(st.work, t);
    if st.work.tasks[t].status == Completed {
      var r :| r in st.work.runs && st.work.runs[r].task == t && st.work.runs[r].status == Done;
      assert RunOf(st.work, r, t) && forall q :: RunOf(st.work, q, t) ==> q <= r;
    }
  }

  lemma OneShotOfBooks(w: Tables, t: Id)
    requires BooksOk(w) && t in w.tasks && IsOneShotTask(w, t)
    ensures OneShotOk(w, t)
    ensures w.tasks[t].status == Archived ==> LifeStatus(w.tasks[t]) != Active
  {
    hide RefsOk, HistoryOk, RunRevisionsOk, TextsOk, CountsOk, IdleOk, SlotsOk, LogsOk, OneShotOk, IsOneShotTask,
         StatusBeforeArchive;
  }

  /** A one-shot task that is over stays over, whatever happens next, and no run is ever added to it. */
  lemma OneShotTasksStayOver(st: Store, turns: seq<Turn>, t: Id)
    requires Reachable(st) && AllProper(st, turns)
    requires t in st.work.tasks && IsOneShotTask(st.work, t) && st.work.tasks[t].status != Active
    ensures var later := After(st, turns).work;
            t in later.tasks && later.tasks[t].status != Active && forall r :: RunOf(later, r, t) ==>
              RunOf(st.work, r, t)
  {
    hide Reachable, InvExcept;
    ReachableIsInOrder(st);
    OneShotOfBooks(st.work, t);
    ReachableGoesOn(st, turns);
    hide After;
    var later := After(st, turns);
    assert IsOver(st.work, t);
    assert StaysOver(st.work, later.work, t);
    ReachableIsInOrder(later);
    OneShotOfBooks(later.work, t);
    forall r | RunOf(later.work, r, t) ensures RunOf(st.work, r, t) {
      assert RunGoesOn(st.work.runs[r], later.work.runs[r]);
    }
  }

  // ---------------------------------------------------------------- due slots

  /** The runs of a task that its schedule fired. */
  ghost function FiredRuns(w: Tables, t: Id): set<Id> {
    set r | r in w.runs && w.runs[r].task == t && IsFired(w.runs[r])
  }

  function FiredIdsOf(runs: map<Id, Run>, task: Id, n: Id): seq<Id> {
    if n == 0 then []
    else
      var before := FiredIdsOf(runs, task, n - 1);
      if n - 1 in runs && runs[n - 1].task == task && IsFired(runs[n - 1]) then before + [n - 1] else before
  }

  lemma {:induction false} FiredIdsAreSlots(runs: map<Id, Run>, task: Id, n: Id)
    ensures |Slots(runs, task, n)| == |FiredIdsOf(runs, task, n)|
    ensures forall i :: 0 <= i < |FiredIdsOf(runs, task, n)| ==>
                          var r := FiredIdsOf(runs, task, n)[i];
                          r in runs && r < n && runs[r].task == task && IsFired(runs[r])
                          && Slots(runs, task, n)[i] == runs[r].scheduledFor
    ensures forall r :: r in runs && r < n && runs[r].task == task && IsFired(runs[r]) ==>
              r in FiredIdsOf(runs, task, n)
    ensures Ascending(FiredIdsOf(runs, task, n))
  {
    if n != 0 {
      FiredIdsAreSlots(runs, task, n - 1);
      AscendingAppend(FiredIdsOf(runs, task, n - 1), n - 1);
    }
  }

  lemma {:induction false} AscendingCount(ids: seq<Id>, all: set<Id>)
    requires Ascending(ids) && forall r :: r in all <==> r in ids
    ensures |all| == |ids|
    decreases |ids|
  {
    if ids == [] {
      assert all == {};
    } else {
      var rest, last := ids[..|ids| - 1], ids[|ids| - 1];
      assert forall r :: r in ids <==> r in rest || r == last by { assert ids == rest + [last]; }
      assert last !in rest;
      AscendingCount(rest, all - {last});
    }
  }

  lemma FiredRunsAreListed(w: Tables, t: Id)
    requires forall r :: r in w.runs ==> r < w.next
    ensures var ids := FiredIdsOf(w.runs, t, w.next);
            && |FiredRuns(w, t)| == |ids| == |Slots(w.runs, t, w.next)|
            && (forall r :: r in FiredRuns(w, t) <==> r in ids)
  {
    FiredIdsAreSlots(w.runs, t, w.next);
    AscendingCount(FiredIdsOf(w.runs, t, w.next), FiredRuns(w, t));
  }

  lemma ScheduleOfBooks(w: Tables, s: Id)
    requires BooksOk(w) && s in w.schedules
    ensures w.schedules[s].task in w.tasks && ScheduleFits(w.schedules[s], Slots(w.runs, w.schedules[s].task, w.next))
    ensures w.schedules[s].runCount == |RunIdsOf(w.runs, w.schedules[s].task, w.next)|
    ensures IsLive(w.schedules[s].status) ==> w.tasks[w.schedules[s].task].status == Active
    ensures forall r :: r in w.runs ==> r < w.next
    ensures NeedsSchedule(w.schedules[s].kind)
  {
    hide HistoryOk, RunRevisionsOk, TextsOk, ArchivesOk, OneShotsOk, LogsOk, ScheduleFits;
  }

  predicate IsSlot(run: Run, schedule: Schedule, i: nat) {
    && schedule.start.Some? && schedule.intervalMs.Some?
    && run.scheduledFor == Some(schedule.start.value + i * schedule.intervalMs.value)
  }

  /** The i-th run that the schedule fired is for the slot start + i * interval: every slot up to the last
      is filled, in order and once.  While the schedule can still fire, its next slot follows those. */
  ghost predicate FilledInOrder(w: Tables, schedule: Schedule) {
    var fired, ids := FiredRuns(w, schedule.task), FiredIdsOf(w.runs, schedule.task, w.next);
    && schedule.start.Some? && schedule.intervalMs.Some? && schedule.intervalMs.value >= 1
    && (forall r :: r in ids <==> r in fired) && |ids| == |fired| && Ascending(ids)
    && (forall i :: 0 <= i < |ids| ==> ids[i] in w.runs && IsSlot(w.runs[ids[i]], schedule, i))
    && (IsLive(schedule.status) ==>
          schedule.nextRunAt == Some(schedule.start.value + |fired| * schedule.intervalMs.value))
  }

  /** A recurring schedule never skips or repeats a slot, and never fires more often than maxRuns allows,
      however many retries come between. */
  lemma RecurringSlotsAreFilledInOrder(st: Store, s: Id)
    requires Reachable(st) && s in st.work.schedules && st.work.schedules[s].kind == Recurring
    ensures FilledInOrder(st.work, st.work.schedules[s])
    ensures st.work.schedules[s].maxRuns.Some? ==>
              |FiredRuns(st.work, st.work.schedules[s].task)| <= st.work.schedules[s].maxRuns.value
  {
    hide *;
    ReachableIsInOrder(st);
    RecurringOfBooks(st.work, s);
    SlotsFilledInOrder(st.work, st.work.schedules[s]);
  }

  lemma SlotsFilledInOrder(w: Tables, schedule: Schedule)
    requires RecurringOk(schedule, Slots(w.runs, schedule.task, w.next)) && forall r :: r in w.runs ==> r < w.next
    ensures FilledInOrder(w, schedule)
    ensures schedule.maxRuns.Some? ==> |FiredRuns(w, schedule.task)| <= schedule.maxRuns.value
  {
    hide FiredIdsOf, FiredRuns, Slots, RecurringOk, Ascending, IsSlot;
    FiredRunsAreListed(w, schedule.task);
    RecurringGoesOnFromHere(schedule, Slots(w.runs, schedule.task, w.next));
    SlotsOfRuns(w, schedule);
  }

  lemma RecurringOfBooks(w: Tables, s: Id)
    requires BooksOk(w) && s in w.schedules && w.schedules[s].kind == Recurring
    ensures RecurringOk(w.schedules[s], Slots(w.runs, w.schedules[s].task, w.next)) && forall r :: r in w.runs ==>
              r < w.next
  {
    hide BooksOk, Slots, RecurringOk;
    ScheduleOfBooks(w, s);
  }

  lemma RecurringGoesOnFromHere(schedule: Schedule, slots: seq<Option<Time>>)
    requires RecurringOk(schedule, slots)
    ensures schedule.start.Some? && schedule.intervalMs.Some? && schedule.intervalMs.value >= 1
    ensures IsLive(schedule.status) ==>
              schedule.nextRunAt == Some(schedule.start.value + |slots| * schedule.intervalMs.value)
    ensures schedule.maxRuns.Some? ==> |slots| <= schedule.maxRuns.value
  {
    SlotAtIsLinear(schedule.start.value, schedule.intervalMs.value, |slots|);
  }

  lemma SlotsOfRuns(w: Tables, schedule: Schedule)
    requires RecurringOk(schedule, Slots(w.runs, schedule.task, w.next))
    ensures var ids := FiredIdsOf(w.runs, schedule.task, w.next);
            && Ascending(ids)
            && forall i :: 0 <= i < |ids| ==> ids[i] in w.runs && IsSlot(w.runs[ids[i]], schedule, i)
  {
    var ids := FiredIdsOf(w.runs, schedule.task, w.next);
    FiredIdsAreSlots(w.runs, schedule.task, w.next);
    forall i | 0 <= i < |ids| ensures ids[i] in w.runs && IsSlot(w.runs[ids[i]], schedule, i) {
      SlotAtIsLinear(schedule.start.value, schedule.intervalMs.value, i);
    }
  }

  /** A schedule for one time fires at most once, in its slot. */
  lemma OnceFiresAtMostOnce(st: Store, s: Id)
    requires Reachable(st) && s in st.work.schedules && st.work.schedules[s].kind == ScheduledOnce
    ensures |FiredRuns(st.work, st.work.schedules[s].task)| <= 1
    ensures forall r :: r in FiredRuns(st.work, st.work.schedules[s].task) ==>
              st.work.runs[r].scheduledFor == st.work.schedules[s].start
  {
    hide *;
    ReachableIsInOrder(st);
    OnceOfBooks(st.work, s);
  }

  lemma OnceOfBooks(w: Tables, s: Id)
    requires BooksOk(w) && s in w.schedules && w.schedules[s].kind == ScheduledOnce
    ensures |FiredRuns(w, w.schedules[s].task)| <= 1
    ensures forall r :: r in FiredRuns(w, w.schedules[s].task) ==> w.runs[r].scheduledFor == w.schedules[s].start
  {
    hide BooksOk, FiredIdsOf, Slots;
    var t := w.schedules[s].task;
    ScheduleOfBooks(w, s);
    FiredRunsAreListed(w, t);
    FiredIdsAreSlots(w.runs, t, w.next);
  }

  // ---------------------------------------------------------------- counts and idleness

  ghost function RunsOf(w: Tables, t: Id): set<Id> {
    set r | r in w.runs && w.runs[r].task == t
  }

  /** The schedule's counter is the number of its task's runs, retries included. */
  lemma RunCountIsConserved(st: Store, s: Id)
    requires Reachable(st) && s in st.work.schedules
    ensures st.work.schedules[s].runCount == |RunsOf(st.work, st.work.schedules[s].task)|
  {
    hide Reachable, InvExcept;
    var w, t := st.work, st.work.schedules[s].task;
    ReachableIsInOrder(st);
    ScheduleOfBooks(w, s);
    hide BooksOk;
    RunIdsComplete(w.runs, t, w.next);
    AscendingCount(RunIdsOf(w.runs, t, w.next), RunsOf(w, t));
  }

  /** A task that is not active has no schedule that could fire, and a due run asked for anyway is
      refused, although createDueWorkRun never looks at the task's status. */
  lemma InactiveTasksGetNoWork(st: Store, s: Id, actor: string, directory: set<string>, now: Time)
    requires Reachable(st) && s in st.work.schedules && st.work.schedules[s].task in st.work.tasks
    requires st.work.tasks[st.work.schedules[s].task].status != Active
    ensures !IsLive(st.work.schedules[s].status)
    ensures CreateDueRun(st.work, s, actor, directory, now) == Outcome(st.work, Err(ScheduleNotEnabled))
  {
    hide Reachable, InvExcept;
    hide BooksOk;
    ReachableIsInOrder(st);
    ScheduleOfBooks(st.work, s);
    hide ScheduleFits, FirstFilling, RunIdsOf, ScheduleOf, AdvanceSchedule;
  }

  /** The table's constraint on enabled schedules is never violated, and a due run never reuses another. */
  lemma EnabledSchedulesHaveASlot(st: Store, s: Id)
    requires Reachable(st) && s in st.work.schedules && st.work.schedules[s].status == Enabled
    ensures st.work.schedules[s].nextRunAt.Some?
    ensures forall r :: r in st.work.runs ==>
              !FillsSlot(st.work.runs[r], st.work.schedules[s].task, st.work.schedules[s].nextRunAt.value)
  {
    hide Reachable, InvExcept;
    var w, t := st.work, st.work.schedules[s].task;
    assert BooksOk(w) by { ReachableIsInOrder(st); }
    ScheduleOfBooks(w, s);
    SlotsBooks(w);
    hide BooksOk, RefsOk, CountsOk, SlotsOk;
    SlotIsFree(w, s);
    RunIdsComplete(w.runs, t, w.next);
    var ids := RunIdsOf(w.runs, t, w.next);
    forall r | r in w.runs ensures !FillsSlot(w.runs[r], t, w.schedules[s].nextRunAt.value) {
      if w.runs[r].task == t {
        assert r in ids;
      }
    }
  }

  lemma SlotsBooks(w: Tables)
    requires BooksOk(w)
    ensures RefsOk(w) && CountsOk(w) && SlotsOk(w)
  {
  }

  // ---------------------------------------------------------------- logs and fields

  /** The statuses that a run's events stand for, oldest first. */
  function StatusPath(events: map<Id, Event>, r: Id, n: Id): seq<RunStatus> {
    if n == 0 then []
    else
      var before := StatusPath(events, r, n - 1);
      if n - 1 in events && events[n - 1].run == r && StatusOfEvent(events[n - 1].eventType).Some?
      then before + [StatusOfEvent(events[n - 1].eventType).value] else before
  }

  predicate IsPath(path: seq<RunStatus>) {
    && path != [] && path[0] == Queued
    && forall i :: 0 < i < |path| ==> path[i] in AllowedRunMoves(path[i - 1])
  }

  lemma {:induction false} ReplayReadsThePath(events: map<Id, Event>, r: Id, n: Id)
    ensures Replay(events, r, n) == Unborn <==> StatusPath(events, r, n) == []
    ensures forall status :: Replay(events, r, n) == At(status) <==>
                               IsPath(StatusPath(events, r, n))
                               && StatusPath(events, r, n)[|StatusPath(events, r, n)| - 1] == status
  {
    if n != 0 {
      ReplayReadsThePath(events, r, n - 1);
      var path, longer := StatusPath(events, r, n - 1), StatusPath(events, r, n);
      if longer != path {
        var last := longer[|longer| - 1];
        assert longer == path + [last];
        PathGrows(path, last);
        if path == [] { assert Replay(events, r, n - 1) == Unborn; } else {
          assert Replay(events, r, n - 1) == At(path[|path| - 1]) || Replay(events, r, n - 1) == Broken;
        }
      }
    }
  }

  lemma PathGrows(path: seq<RunStatus>, last: RunStatus)
    ensures IsPath(path + [last]) <==>
              if path == [] then last == Queued else IsPath(path) && last in AllowedRunMoves(path[|path| - 1])
  {
    var longer := path + [last];
    if path != [] && IsPath(longer) {
      assert forall i :: 0 < i < |path| ==> longer[i] in AllowedRunMoves(longer[i - 1]);
      assert longer[|path|] in AllowedRunMoves(longer[|path| - 1]);
      assert forall i :: 0 <= i < |path| ==> longer[i] == path[i];
      assert IsPath(path);
    }
  }

  /** A run's log leads, by allowed steps from its creation, to the status it has; it leaves the queue at
      most once, so no run is started twice. */
  lemma LogsLeadToTheirStatus(st: Store, r: Id)
    requires Reachable(st) && r in st.work.runs
    ensures var path := StatusPath(st.work.events, r, st.work.next);
            && IsPath(path) && path[|path| - 1] == st.work.runs[r].status
            && forall i :: 0 < i < |path| ==> path[i] != Queued
    ensures FieldsAgree(st.work.runs[r])
  {
    hide Reachable, InvExcept;
    ReachableIsInOrder(st);
    hide StatusPath, Replay;
    LogOfBooks(st.work, r);
    ReplayReadsThePath(st.work.events, r, st.work.next);
    PathLeavesTheQueueOnce(StatusPath(st.work.events, r, st.work.next));
  }

  lemma PathLeavesTheQueueOnce(path: seq<RunStatus>)
    requires IsPath(path)
    ensures forall i :: 0 < i < |path| ==> path[i] != Queued
  {
    forall i | 0 < i < |path| ensures path[i] != Queued {
      assert path[i] in AllowedRunMoves(path[i - 1]);
    }
  }

  lemma LogOfBooks(w: Tables, r: Id)
    requires BooksOk(w) && r in w.runs
    ensures LogAgrees(w, r) && FieldsAgree(w.runs[r])
  {
    hide RefsOk, HistoryOk, RunRevisionsOk, TextsOk, CountsOk, IdleOk, SlotsOk, ArchivesOk, OneShotsOk, LogAgrees,
         FieldsAgree;
  }

  // ---------------------------------------------------------------- revisions

  /** A task's revisions are numbered 1 to its revision, one each; the last is its text, neighbours
      differ, and every run of the task follows one of them. */
  lemma RevisionsAreTheHistory(st: Store, t: Id)
    requires Reachable(st) && t in st.work.tasks
    ensures var w, task := st.work, st.work.tasks[t];
            && (forall n :: 1 <= n <= task.revision ==> HasRevision(w.revisions, t, n))
            && (forall k :: k in w.revisions && w.revisions[k].task == t ==>
                              && 1 <= w.revisions[k].number <= task.revision
                              && (w.revisions[k].number == task.revision ==> SameText(w.revisions[k], task)))
            && NumberedOnce(w.revisions) && NeighboursDiffer(w.revisions)
            && (forall r :: RunOf(w, r, t) ==> 1 <= w.runs[r].taskRevision <= task.revision)
  {
    hide Reachable, InvExcept;
    ReachableIsInOrder(st);
    HistoryOfBooks(st.work);
  }

  lemma HistoryOfBooks(w: Tables)
    requires BooksOk(w)
    ensures HistoryOk(w) && RunRevisionsOk(w)
  {
  }

  // ---------------------------------------------------------------- leases and blocked runs

  /** A pending lease is the one the service finds, the only pending one of its run, and its run is still
      queued; a retry lease answers an earlier failed lease of the same run. */
  lemma LeaseProtocolHolds(st: Store, l: Id)
    requires Reachable(st) && l in st.leases
    ensures st.leases[l].run in st.work.runs && st.leases[l].assignee == st.work.runs[st.leases[l].run].assignee
    ensures st.leases[l].status == Pending ==>
              && Latest(st, st.leases[l].run) == Some(l)
              && st.work.runs[st.leases[l].run].status == Queued
              && forall k :: k in st.leases && st.leases[k].status == Pending && st.leases[k].run == st.leases[l].run
                             ==> k == l
    ensures st.leases[l].retryOf.Some? ==> AnswersFailure(st.leases, l, st.leases[l].retryOf.value)
  {
    hide Reachable, InvExcept;
    ReachableIsInOrder(st);
    LeasesOfCompany(st);
    hide BooksOk;
    assert LeaseFits(st, l);
    if st.leases[l].status == Pending {
      LatestFound(st, l);
      forall k | k in st.leases && st.leases[k].run == st.leases[l].run
      && st.leases[k].status == Pending ensures k == l {
        assert LeaseFits(st, k);
      }
    }
  }

  lemma LeasesOfCompany(st: Store)
    requires Inv(st)
    ensures LeasesOk(st) && RequestsOk(st) && BlockedReachable(st, {})
  {
    hide BooksOk, LeasesOk, RequestsOk, BlockedReachable;
  }

  /** Somebody other than the assignee has been asked about every blocked run, in a conversation that
      leads back to that run alone. */
  lemma BlockedRunsAreReachable(st: Store, r: Id)
    requires Reachable(st) && r in st.work.runs && st.work.runs[r].status == Blocked
    ensures r in st.requests && st.requests[r].status == Open && st.requests[r].assignee == st.work.runs[r].assignee
    ensures st.requests[r].requester != st.requests[r].assignee
    ensures forall q :: q in st.requests && st.requests[q].conversation == st.requests[r].conversation ==> q == r
  {
    hide Reachable, InvExcept;
    ReachableIsInOrder(st);
    LeasesOfCompany(st);
    hide BooksOk;
    assert HasOpenRequest(st, r);
    assert RequestFits(st, r);
  }

  // ---------------------------------------------------------------- cancellation

  /** Canceling a task leaves nothing of it alive: its schedules are dead, its runs have ended, and no
      canceled run has a lease or a request left; runs that were done or had failed are as they were. */
  lemma TaskCancellationIsComplete(st: Store, t: Id, actor: string, reason: Option<string>, now: Time)
    requires Reachable(st) && CancelWorkTask(st, t, actor, reason, now).result.Ok?
    ensures var st' := CancelWorkTask(st, t, actor, reason, now).store;
            var w, w' := st.work, st'.work;
            && t in w'.tasks && w'.tasks[t].status == TaskCanceled
            && (forall s :: s in w'.schedules && w'.schedules[s].task == t ==> !IsLive(w'.schedules[s].status))
            && (forall r :: RunOf(w', r, t) ==> IsTerminal(w'.runs[r].status))
            && (forall r :: RunOf(w, r, t) && IsTerminal(w.runs[r].status) ==> r in w'.runs && w'.runs[r] == w.runs[r])
            && (forall r :: RunOf(w', r, t) && w'.runs[r].status == Canceled ==>
                              !LatestIs(st', r, {Pending, Acknowledged}) && !HasOpenRequest(st', r))
  {
    hide Reachable, InvExcept;
    ReachableIsInOrder(st);
    hide CancelTask, Cleanup, BooksOk;
    CanceledTaskHasEnded(st.work, t, actor, reason, now);
    hide CleanupIds, HasOpenRequest, LatestIs;
    var w' := CancelTask(st.work, t, actor, reason, now).work;
    var why := if reason.None? || reason.value == "" then "WorkTask canceled." else reason.value;
    ClearedRunsHaveNothing(st.(work := w'), CleanupIds(st.work, t), why, now);
    CleanupOnlyClears(st.(work := w'), CleanupIds(st.work, t), why, now);
  }

  lemma CanceledTaskHasEnded(w: Tables, t: Id, actor: string, reason: Option<string>, now: Time)
    requires BooksOk(w) && CancelTask(w, t, actor, reason, now).result.Ok?
    ensures var w' := CancelTask(w, t, actor, reason, now).work;
            && t in w'.tasks && w'.tasks[t].status == TaskCanceled
            && (forall s :: s in w'.schedules && w'.schedules[s].task == t ==> !IsLive(w'.schedules[s].status))
            && (forall r :: RunOf(w', r, t) ==> IsTerminal(w'.runs[r].status))
            && (forall r :: RunOf(w, r, t) && IsTerminal(w.runs[r].status) ==> r in w'.runs && w'.runs[r] == w.runs[r])
            && (forall r :: RunOf(w', r, t) && w'.runs[r].status == Canceled ==> r in CleanupIds(w, t))
  {
    hide BooksOk, CancelTask;
    CancelTaskOnTables(w, t, actor, reason, now);
  }

  /** Nothing outside the task is touched. */
  lemma TaskCancellationIsFramed(st: Store, t: Id, actor: string, reason: Option<string>, now: Time)
    requires Reachable(st) && CancelWorkTask(st, t, actor, reason, now).result.Ok?
    ensures var st' := CancelWorkTask(st, t, actor, reason, now).store;
            var w, w' := st.work, st'.work;
            && w'.tasks.Keys == w.tasks.Keys && (forall u :: u in w.tasks && u != t ==> w'.tasks[u] == w.tasks[u])
            && w'.revisions == w.revisions
            && w'.schedules.Keys == w.schedules.Keys
            && (forall s :: s in w.schedules && w.schedules[s].task != t ==> w'.schedules[s] == w.schedules[s])
            && w'.runs.Keys == w.runs.Keys
            && (forall r :: r in w.runs && w.runs[r].task != t ==> w'.runs[r] == w.runs[r])
            && (forall e :: e in w.events ==> e in w'.events && w'.events[e] == w.events[e])
            && (forall e :: e in w'.events && e !in w.events ==> RunOf(w, w'.events[e].run, t))
            && st'.leases.Keys == st.leases.Keys && st'.requests.Keys == st.requests.Keys
            && (forall l :: l in st.leases && !RunOf(w, st.leases[l].run, t) ==> st'.leases[l] == st.leases[l])
            && (forall r :: r in st.requests && !RunOf(w, r, t) ==> st'.requests[r] == st.requests[r])
  {
    hide Reachable, InvExcept;
    ReachableIsInOrder(st);
    hide CancelTask, Cleanup, BooksOk;
    CanceledTaskIsFramed(st.work, t, actor, reason, now);
    hide CleanupIds;
    var w' := CancelTask(st.work, t, actor, reason, now).work;
    var why := if reason.None? || reason.value == "" then "WorkTask canceled." else reason.value;
    CleanupIdsAreOfTask(st.work, t);
    CleanupOnlyClears(st.(work := w'), CleanupIds(st.work, t), why, now);
  }

  lemma CleanupIdsAreOfTask(w: Tables, t: Id)
    ensures forall r :: r in CleanupIds(w, t) ==> RunOf(w, r, t)
  {
  }

  lemma CanceledTaskIsFramed(w: Tables, t: Id, actor: string, reason: Option<string>, now: Time)
    requires BooksOk(w) && CancelTask(w, t, actor, reason, now).result.Ok?
    ensures var w' := CancelTask(w, t, actor, reason, now).work;
            && w'.tasks.Keys == w.tasks.Keys && (forall u :: u in w.tasks && u != t ==> w'.tasks[u] == w.tasks[u])
            && w'.revisions == w.revisions
            && w'.schedules.Keys == w.schedules.Keys
            && (forall s :: s in w.schedules && w.schedules[s].task != t ==> w'.schedules[s] == w.schedules[s])
            && w'.runs.Keys == w.runs.Keys
            && (forall r :: r in w.runs && w.runs[r].task != t ==> w'.runs[r] == w.runs[r])
            && (forall e :: e in w.events ==> e in w'.events && w'.events[e] == w.events[e])
            && (forall e :: e in w'.events && e !in w.events ==> RunOf(w, w'.events[e].run, t))
  {
    hide BooksOk, CancelTask;
    CancelTaskOnTables(w, t, actor, reason, now);
    CancelTaskEvents(w, t, actor, reason, now);
  }

  lemma CancelTaskEvents(w: Tables, t: Id, actor: string, reason: Option<string>, now: Time)
    requires BooksOk(w) && CancelTask(w, t, actor, reason, now).result.Ok?
    ensures var w' := CancelTask(w, t, actor, reason, now).work;
            && (forall e :: e in w.events ==> e in w'.events && w'.events[e] == w.events[e])
            && (forall e :: e in w'.events && e !in w.events ==> RunOf(w, w'.events[e].run, t))
  {
    hide CancelTask, RecordsOk, SchedulesOk, LivesOk, LogsOk, BooksOk, RefsOk;
    BooksHaveGroups(w);
    CancelTaskMeans(w, t, actor, reason, now);
  }

  lemma CleanupOnlyClears(st: Store, ids: set<Id>, reason: string, now: Time)
    ensures var st' := Cleanup(st, ids, reason, now);
            && st'.work == st.work && st'.leases.Keys == st.leases.Keys && st'.requests.Keys == st.requests.Keys
            && (forall l :: l in st.leases && st.leases[l].run !in ids ==> st'.leases[l] == st.leases[l])
            && (forall r :: r in st.requests && r !in ids ==> st'.requests[r] == st.requests[r])
  {
  }

  lemma CancelTaskOnTables(w: Tables, t: Id, actor: string, reason: Option<string>, now: Time)
    requires BooksOk(w) && CancelTask(w, t, actor, reason, now).result.Ok?
    ensures var w' := CancelTask(w, t, actor, reason, now).work;
            && t in w.tasks && w'.tasks == w.tasks[t := CanceledTask(w.tasks[t], Normalized(reason), now)]
            && Normalized(reason).Some? && w'.revisions == w.revisions
            && w'.schedules == CancelSchedules(w.schedules, t, Normalized(reason).value, now)
            && w'.runs.Keys == w.runs.Keys
            && forall r :: r in w.runs ==>
                             w'.runs[r] == if w.runs[r].task == t && !IsTerminal(w.runs[r].status)
                                           then CanceledRun(w.runs[r], Normalized(reason).value, now) else w.runs[r]
  {
    hide CancelTask, RecordsOk, SchedulesOk, LivesOk, LogsOk;
    BooksHaveGroups(w);
    CancelTaskEffect(w, t, actor, reason, now);
  }

  /** Canceling one run succeeds exactly if it has not ended otherwise and, where it has not ended at all, there
      is a reason; then the run is canceled, and has no lease and no request left. */
  lemma RunCancellationIsComplete(st: Store, r: Id, actor: string, reason: string, summary: Option<string>, now: Time)
    requires Reachable(st) && NonBlank(actor)
    ensures var canceled := CancelWorkRun(st, r, actor, reason, summary, now);
            && (canceled.result.Ok? <==>
                  && r in st.work.runs && st.work.runs[r].status !in {Done, Failed}
                  && (st.work.runs[r].status == Canceled || NonBlank(reason)))
            && (canceled.result.Ok? ==>
                  && r in canceled.store.work.runs && canceled.store.work.runs[r].status == Canceled
                  && !LatestIs(canceled.store, r, {Pending, Acknowledged}) && !HasOpenRequest(canceled.store, r))
            && (canceled.result.Err? ==> canceled.store == st)
  {
    hide Reachable, InvExcept, MoveRun, Cleanup, BooksOk, LatestIs, HasOpenRequest, NonBlank;
    ReachableIsInOrder(st);
    if r in st.work.runs && st.work.runs[r].status !in {Done, Failed} {
      var input := MoveInput(r, actor, Canceled, summary, Some(reason), None);
      ClearedRunsHaveNothing(st, {r}, reason, now);
      CleanupOnlyClears(st, {r}, reason, now);
      if st.work.runs[r].status != Canceled {
        CancelingDecides(st.work, input, now);
        if NonBlank(reason) {
          MoveRunMoves(st.work, input, now);
          ClearedRunsHaveNothing(st.(work := MoveRun(st.work, input, now).work), {r}, reason, now);
          CleanupOnlyClears(st.(work := MoveRun(st.work, input, now).work), {r}, reason, now);
        }
      }
    }
  }

  lemma CancelingDecides(w: Tables, input: MoveInput, now: Time)
    requires NonBlank(input.actor) && input.status == Canceled && input.reason.Some?
    requires input.run in w.runs && !IsTerminal(w.runs[input.run].status)
    ensures MoveRun(w, input, now).result.Ok? <==> NonBlank(input.reason.value)
    ensures MoveRun(w, input, now).result.Err? ==> MoveRun(w, input, now).work == w
  {
    hide MovedRun, SettleTask;
  }

  /** Nothing but the run, what it has, and its task and schedule is touched. */
  lemma RunCancellationIsFramed(st: Store, r: Id, actor: string, reason: string, summary: Option<string>, now: Time)
    requires Reachable(st) && NonBlank(actor) && r in st.work.runs
    ensures var st' := CancelWorkRun(st, r, actor, reason, summary, now).store;
            && TouchesOneRun(st.work, st'.work, r)
            && st'.leases.Keys == st.leases.Keys && st'.requests.Keys == st.requests.Keys
            && (forall l :: l in st.leases && st.leases[l].run != r ==> st'.leases[l] == st.leases[l])
            && (forall q :: q in st.requests && q != r ==> st'.requests[q] == st.requests[q])
  {
    hide Reachable, InvExcept, MoveRun, Cleanup, BooksOk, NonBlank, TouchesOneRun;
    ReachableIsInOrder(st);
    var input := MoveInput(r, actor, Canceled, summary, Some(reason), None);
    NothingIsTouched(st.work, r);
    MoveTouchesOneRun(st.work, input, now);
    CleanupOnlyClears(st, {r}, reason, now);
    CleanupOnlyClears(st.(work := MoveRun(st.work, input, now).work), {r}, reason, now);
  }

  /** Only the run, its task and the schedules of its task may differ, and new events are about the run. */
  ghost predicate TouchesOneRun(w: Tables, w': Tables, r: Id)
    requires r in w.runs
  {
    var t := w.runs[r].task;
    && w'.revisions == w.revisions && w'.tasks.Keys == w.tasks.Keys && w'.schedules.Keys == w.schedules.Keys
    && w'.runs.Keys == w.runs.Keys && (forall q :: q in w.runs && q != r ==> w'.runs[q] == w.runs[q])
    && (forall u :: u in w.tasks && u != t ==> w'.tasks[u] == w.tasks[u])
    && (forall s :: s in w.schedules && w.schedules[s].task != t ==> w'.schedules[s] == w.schedules[s])
    && (forall e :: e in w.events ==> e in w'.events && w'.events[e] == w.events[e])
    && (forall e :: e in w'.events && e !in w.events ==> w'.events[e].run == r)
  }

  lemma NothingIsTouched(w: Tables, r: Id)
    requires r in w.runs
    ensures TouchesOneRun(w, w, r)
  {
  }

  lemma MoveTouchesOneRun(w: Tables, input: MoveInput, now: Time)
    requires BooksOk(w) && input.run in w.runs
    ensures TouchesOneRun(w, MoveRun(w, input, now).work, input.run)
  {
    hide BooksOk, MovedRun, MoveError, SettleTask, Normalized, SummaryOr, EventTypeFor;
    EventsAreFresh(w);
    if MoveError(w.runs[input.run], input).None? && Normalized(Some(input.actor)).Some? {
      var event := Event(input.run, now, Normalized(Some(input.actor)).value, EventTypeFor(input.status),
                         SummaryOr(input.summary, "Moved WorkRun."));
      var w1 := w.(runs := w.runs[input.run := MovedRun(w.runs[input.run], input, now)]);
      SettlingTouchesOneTask(LogEvent(w1, event), w.runs[input.run].task, input.status, Normalized(input.reason), now);
    }
  }

  lemma SettlingTouchesOneTask(w: Tables, t: Id, status: RunStatus, reason: Option<string>, now: Time)
    ensures var w' := SettleTask(w, t, status, reason, now);
            && w'.runs == w.runs && w'.events == w.events && w'.revisions == w.revisions
            && w'.tasks.Keys == w.tasks.Keys && w'.schedules.Keys == w.schedules.Keys
            && (forall u :: u in w.tasks && u != t ==> w'.tasks[u] == w.tasks[u])
            && (forall s :: s in w.schedules && w.schedules[s].task != t ==> w'.schedules[s] == w.schedules[s])
  {
    hide ClosesWork, SettledTask, SettledSchedule, RepairedCount;
  }

  lemma EventsAreFresh(w: Tables)
    requires BooksOk(w)
    ensures w.next !in w.events
  {
    hide *;
    BooksHaveGroups(w);
    RefsKeepEvents(w);
    EventsOfRefs(w);
  }

  lemma EventsOfRefs(w: Tables)
    requires EventsOk(w)
    ensures w.next !in w.events
  {
  }

  lemma ClearedRunsHaveNothing(st: Store, ids: set<Id>, reason: string, now: Time)
    ensures var st' := Cleanup(st, ids, reason, now);
            forall r :: r in ids ==> !LatestIs(st', r, {Pending, Acknowledged}) && !HasOpenRequest(st', r)
  {
    var st' := Cleanup(st, ids, reason, now);
    forall r | r in ids ensures Latest(st', r) == Latest(st, r) {
      LatestOnlyReadsRuns(st.leases, st'.leases, r, st.work.next);
    }
  }

  lemma {:induction false} LatestOnlyReadsRuns(a: map<Id, Lease>, b: map<Id, Lease>, r: Id, n: Id)
    requires a.Keys == b.Keys && forall l :: l in a ==> a[l].run == b[l].run
    ensures LatestLease(a, r, n) == LatestLease(b, r, n)
  {
    if n != 0 { LatestOnlyReadsRuns(a, b, r, n - 1); }
  }

  // ---------------------------------------------------------------- archive and restore

  /** Archiving a task and restoring it gives back the status it had, and every other field but its
      metadata and the time of its last update. */
  lemma RestoreUndoesArchive(w: Tables, t: Id, actor: string, reason: Option<string>, who: string, archivedAt: Time,
                             now: Time)
    requires t in w.tasks && w.tasks[t].status in {Completed, TaskCanceled} && NonBlank(actor) && NonBlank(who)
    ensures var archived := ArchiveTask(w, t, actor, reason, archivedAt).work;
            var restored := RestoreTask(archived, t, who, now).work;
            && archived.tasks[t].status == Archived
            && restored == w.(tasks := w.tasks[t := w.tasks[t].(metadata := archived.tasks[t].metadata,
                                                                updatedAt := now)])
  {
    var archivist := Normalized(Some(actor)).value;
    ArchiveRemembers(w.tasks[t], archivist, Normalized(reason), archivedAt);
    hide StatusBeforeArchive, Normalized;
    var archived := ArchiveTask(w, t, actor, reason, archivedAt).work;
    var restored := RestoreTask(archived, t, who, now).work;
    assert restored.tasks == w.tasks[t := w.tasks[t].(metadata := archived.tasks[t].metadata, updatedAt := now)];
  }
}
