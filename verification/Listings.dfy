/** How the listings of a task's runs, slots and schedules change when the tables do. */
module Listings {
  import opened Prelude
  import opened WorkDomain

  /** A run that a schedule fired, as opposed to an immediate run or a retry. */
  predicate IsFired(run: Run) {
    run.triggeredBy == BySchedule || run.triggeredBy == ByRecurrence
  }

  /** The slots of the runs that a task's schedule fired, oldest first. */
  function Slots(runs: map<Id, Run>, task: Id, n: Id): seq<Option<Time>> {
    if n == 0 then []
    else
      var before := Slots(runs, task, n - 1);
      if n - 1 in runs && runs[n - 1].task == task && IsFired(runs[n - 1]) then before + [runs[n - 1].scheduledFor]
      else before
  }

  predicate Ascending(ids: seq<Id>) {
    forall i, j :: 0 <= i < j < |ids| ==> ids[i] < ids[j]
  }

  lemma AscendingAppend(ids: seq<Id>, last: Id)
    requires Ascending(ids) && forall i :: 0 <= i < |ids| ==> ids[i] < last
    ensures Ascending(ids + [last])
  {
  }

  /** The listings read nothing of a run but its task, trigger and slot. */
  ghost predicate SamePlaces(a: map<Id, Run>, b: map<Id, Run>, task: Id, n: Id) {
    forall r :: r < n ==>
                  && ((r in a && a[r].task == task) <==> (r in b && b[r].task == task))
                  && (r in a && a[r].task == task ==>
                        a[r].triggeredBy == b[r].triggeredBy && a[r].scheduledFor == b[r].scheduledFor)
  }

  lemma {:induction false} RunsFrame(a: map<Id, Run>, b: map<Id, Run>, task: Id, n: Id)
    requires SamePlaces(a, b, task, n)
    ensures RunIdsOf(a, task, n) == RunIdsOf(b, task, n)
    ensures Slots(a, task, n) == Slots(b, task, n)
  {
    if n != 0 { RunsFrame(a, b, task, n - 1); }
  }

  lemma {:induction false} RunsGap(runs: map<Id, Run>, task: Id, n: Id, m: Id)
    requires n <= m
    requires forall r :: n <= r < m && r in runs ==> runs[r].task != task
    ensures RunIdsOf(runs, task, m) == RunIdsOf(runs, task, n)
    ensures Slots(runs, task, m) == Slots(runs, task, n)
  {
    if n < m { RunsGap(runs, task, n, m - 1); }
  }

  /** Ids that hold no new run of the task leave both listings alone. */
  lemma RunsSame(a: map<Id, Run>, b: map<Id, Run>, task: Id, n: Id, m: Id)
    requires n <= m && SamePlaces(a, b, task, n)
    requires forall r :: n <= r && r in b ==> b[r].task != task
    ensures RunIdsOf(b, task, m) == RunIdsOf(a, task, n)
    ensures Slots(b, task, m) == Slots(a, task, n)
  {
    RunsFrame(a, b, task, n);
    RunsGap(b, task, n, m);
  }

  lemma RunsOneMore(runs: map<Id, Run>, task: Id, r: Id)
    requires r in runs && runs[r].task == task
    ensures RunIdsOf(runs, task, r + 1) == RunIdsOf(runs, task, r) + [r]
    ensures Slots(runs, task, r + 1) == Slots(runs, task, r) + (if IsFired(runs[r]) then [runs[r].scheduledFor] else [])
  {
  }

  /** One new run of the task comes last in both. */
  lemma RunsAppend(a: map<Id, Run>, b: map<Id, Run>, task: Id, n: Id, r: Id, m: Id)
    requires n <= r < m && SamePlaces(a, b, task, n)
    requires r in b && b[r].task == task
    requires forall q :: n <= q && q != r && q in b ==> b[q].task != task
    ensures RunIdsOf(b, task, m) == RunIdsOf(a, task, n) + [r]
    ensures Slots(b, task, m) == Slots(a, task, n) + (if IsFired(b[r]) then [b[r].scheduledFor] else [])
  {
    RunsFrame(a, b, task, n);
    RunsGap(b, task, n, r);
    RunsOneMore(b, task, r);
    RunsGap(b, task, r + 1, m);
  }

  /** The listing of runs is complete and in id order. */
  lemma {:induction false} RunIdsComplete(runs: map<Id, Run>, task: Id, n: Id)
    ensures forall r :: r in runs && runs[r].task == task && r < n ==> r in RunIdsOf(runs, task, n)
    ensures Ascending(RunIdsOf(runs, task, n))
  {
    if n != 0 {
      RunIdsComplete(runs, task, n - 1);
      AscendingAppend(RunIdsOf(runs, task, n - 1), n - 1);
    }
  }

  /** So is the listing of schedules. */
  lemma {:induction false} ScheduleIdsComplete(schedules: map<Id, Schedule>, task: Id, n: Id)
    ensures forall s :: s in schedules && schedules[s].task == task && s < n ==> s in ScheduleIdsOf(schedules, task, n)
    ensures Ascending(ScheduleIdsOf(schedules, task, n))
  {
    if n != 0 {
      ScheduleIdsComplete(schedules, task, n - 1);
      AscendingAppend(ScheduleIdsOf(schedules, task, n - 1), n - 1);
    }
  }

  /** Every fired run of the task stands in the listing of slots. */
  lemma {:induction false} SlotsContain(runs: map<Id, Run>, task: Id, n: Id, r: Id)
    requires r in runs && r < n && runs[r].task == task && IsFired(runs[r])
    ensures runs[r].scheduledFor in Slots(runs, task, n)
  {
    if r < n - 1 { SlotsContain(runs, task, n - 1, r); }
  }

  /** At most as many slots as runs. */
  lemma {:induction false} SlotsAreRuns(runs: map<Id, Run>, task: Id, n: Id)
    ensures |Slots(runs, task, n)| <= |RunIdsOf(runs, task, n)|
  {
    if n != 0 { SlotsAreRuns(runs, task, n - 1); }
  }

  /** Where a task has at most one schedule, that is the one the queries find. */
  lemma ScheduleOfIs(w: Tables, s: Id)
    requires s in w.schedules && s < w.next
    requires forall q :: q in w.schedules && w.schedules[q].task == w.schedules[s].task ==> q == s
    ensures ScheduleOf(w, w.schedules[s].task) == Some(s)
  {
    ScheduleIdsComplete(w.schedules, w.schedules[s].task, w.next);
    var ids := ScheduleIdsOf(w.schedules, w.schedules[s].task, w.next);
    assert s in ids;
  }
}
