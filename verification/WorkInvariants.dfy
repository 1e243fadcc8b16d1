/** What every reachable state of the Work tables keeps, one predicate for each promise. */
module WorkInvariants {
  import opened Prelude
  import opened WorkDomain
  import opened WorkOperations
  import opened Listings
  import opened RunLog

  // ---------------------------------------------------------------- references and fresh ids

  predicate KeyFits(key: RevisionKey, revision: Revision, n: Id) {
    match key
    case InitialRevision(t) => t == revision.task && revision.number == 1
    case LaterRevision(id) => id < n && revision.number > 1
  }

  /** Ids are below the next fresh one, references lead somewhere, a task has at most one schedule. */
  ghost predicate RefsOk(w: Tables) {
    && (forall t :: t in w.tasks ==> t < w.next)
    && (forall k :: k in w.revisions ==> w.revisions[k].task in w.tasks && KeyFits(k, w.revisions[k], w.next))
    && (forall s :: s in w.schedules ==>
          s < w.next && w.schedules[s].task in w.tasks && NeedsSchedule(w.schedules[s].kind))
    && (forall r :: r in w.runs ==> r < w.next && w.runs[r].task in w.tasks)
    && EventsOk(w)
    && OneSchedule(w.schedules)
  }

  ghost predicate OneSchedule(schedules: map<Id, Schedule>) {
    forall s, q :: s in schedules && q in schedules && schedules[s].task == schedules[q].task ==> s == q
  }

  // ---------------------------------------------------------------- revision history

  predicate SameText(revision: Revision, task: Task) {
    && revision.title == task.title
    && revision.description == task.description
    && revision.acceptanceCriteria == task.acceptanceCriteria
  }

  predicate SameTexts(a: Revision, b: Revision) {
    && a.title == b.title
    && a.description == b.description
    && a.acceptanceCriteria == b.acceptanceCriteria
  }

  ghost predicate HasRevision(revisions: map<RevisionKey, Revision>, t: Id, n: nat) {
    exists k :: k in revisions && revisions[k].task == t && revisions[k].number == n
  }

  /** A task's revisions are numbered 1 to its revision, each number once; the last one is the task's
      text and neighbours differ. */
  ghost predicate HistoryOk(w: Tables) {
    && (forall t :: t in w.tasks ==> w.tasks[t].revision >= 1)
    && (forall k :: k in w.revisions && w.revisions[k].task in w.tasks ==>
                      && 1 <= w.revisions[k].number <= w.tasks[w.revisions[k].task].revision
                      && (w.revisions[k].number == w.tasks[w.revisions[k].task].revision ==>
                            SameText(w.revisions[k], w.tasks[w.revisions[k].task])))
    && (forall t, n :: t in w.tasks && 1 <= n <= w.tasks[t].revision ==> HasRevision(w.revisions, t, n))
    && NumberedOnce(w.revisions)
    && NeighboursDiffer(w.revisions)
  }

  ghost predicate NumberedOnce(revisions: map<RevisionKey, Revision>) {
    forall j, k :: j in revisions && k in revisions && revisions[j].task == revisions[k].task && j != k ==>
                     revisions[j].number != revisions[k].number
  }

  ghost predicate NeighboursDiffer(revisions: map<RevisionKey, Revision>) {
    forall j, k :: j in revisions && k in revisions && revisions[j].task == revisions[k].task ==>
                     revisions[j].number + 1 == revisions[k].number ==> !SameTexts(revisions[j], revisions[k])
  }

  /** Every run follows a revision its task has had. */
  ghost predicate RunRevisionsOk(w: Tables) {
    forall r :: r in w.runs && w.runs[r].task in w.tasks ==>
      1 <= w.runs[r].taskRevision <= w.tasks[w.runs[r].task].revision
  }

  /** A task always has a title and acceptance criteria to work by. */
  ghost predicate TextsOk(w: Tables) {
    && (forall t :: t in w.tasks ==> NonBlank(w.tasks[t].title) && NonBlank(w.tasks[t].acceptanceCriteria)
                                     && NonBlank(w.tasks[t].origin.createdBy))
    && (forall r :: r in w.runs ==> NonBlank(w.runs[r].assignee))
    && (forall t :: t in w.tasks ==> NonBlank(w.tasks[t].owner))
  }

  // ---------------------------------------------------------------- schedules

  /** A schedule's counter is the number of its task's runs, retries included. */
  ghost predicate CountsOk(w: Tables) {
    forall s :: s in w.schedules ==>
                  w.schedules[s].runCount == |RunIdsOf(w.runs, w.schedules[s].task, w.next)|
  }

  /** Only an active task has a schedule that can still fire. */
  ghost predicate IdleOk(w: Tables) {
    forall s :: s in w.schedules && IsLive(w.schedules[s].status) && w.schedules[s].task in w.tasks ==>
                  w.tasks[w.schedules[s].task].status == Active
  }

  /** The i-th slot of a recurring schedule. */
  function SlotAt(start: Time, intervalMs: int, i: nat): Time {
    if i == 0 then start else SlotAt(start, intervalMs, i - 1) + intervalMs
  }

  lemma {:induction false} SlotAtIsLinear(start: Time, intervalMs: int, i: nat)
    ensures SlotAt(start, intervalMs, i) == start + i * intervalMs
  {
    if i != 0 { SlotAtIsLinear(start, intervalMs, i - 1); }
  }

  /** The slots are the first ones of the progression, in order and without gaps. */
  ghost predicate InSequence(slots: seq<Option<Time>>, start: Time, intervalMs: int) {
    forall i :: 0 <= i < |slots| ==> slots[i] == Some(SlotAt(start, intervalMs, i))
  }

  ghost predicate RecurringOk(schedule: Schedule, slots: seq<Option<Time>>) {
    && schedule.start.Some? && schedule.intervalMs.Some? && schedule.intervalMs.value >= 1
    && InSequence(slots, schedule.start.value, schedule.intervalMs.value)
    && (schedule.maxRuns.Some? ==> |slots| <= schedule.maxRuns.value)
    && (IsLive(schedule.status) ==>
          && schedule.nextRunAt == Some(SlotAt(schedule.start.value, schedule.intervalMs.value, |slots|))
          && (schedule.maxRuns.Some? ==> |slots| < schedule.maxRuns.value))
  }

  ghost predicate OnceOk(schedule: Schedule, slots: seq<Option<Time>>) {
    && schedule.start.Some?
    && (slots == [] || slots == [schedule.start])
    && (IsLive(schedule.status) ==> schedule.nextRunAt == schedule.start && schedule.runCount == 0)
  }

  ghost predicate ScheduleFits(schedule: Schedule, slots: seq<Option<Time>>) {
    if schedule.kind == Recurring then RecurringOk(schedule, slots) else OnceOk(schedule, slots)
  }

  ghost predicate SlotsOk(w: Tables) {
    forall s :: s in w.schedules ==> ScheduleFits(w.schedules[s], Slots(w.runs, w.schedules[s].task, w.next))
  }

  // ---------------------------------------------------------------- one-shot tasks

  /** The status a task has, or had before it was archived. */
  function LifeStatus(task: Task): TaskStatus {
    if task.status == Archived then StatusBeforeArchive(task) else task.status
  }

  /** Archived tasks remember an inactive status. */
  ghost predicate ArchivesOk(w: Tables) {
    forall t :: t in w.tasks && w.tasks[t].status == Archived ==> LifeStatus(w.tasks[t]) in {Completed, TaskCanceled}
  }

  /** Immediate tasks, which have no schedule, and tasks scheduled once. */
  ghost predicate IsOneShotTask(w: Tables, t: Id) {
    forall s :: s in w.schedules && w.schedules[s].task == t ==> w.schedules[s].kind == ScheduledOnce
  }

  ghost predicate HasDoneRun(runs: map<Id, Run>, t: Id) {
    exists r :: r in runs && runs[r].task == t && runs[r].status == Done
  }

  /** The run that was created together with an immediate task. */
  ghost predicate Anchored(w: Tables, t: Id)
    requires t in w.tasks
  {
    || (exists s :: s in w.schedules && w.schedules[s].task == t)
    || (exists r :: r in w.runs && w.runs[r].task == t && w.runs[r].createdAt == w.tasks[t].origin.createdAt)
  }

  ghost predicate OneShotOk(w: Tables, t: Id)
    requires t in w.tasks
  {
    && (forall q, r :: q in w.runs && r in w.runs && w.runs[q].task == t && w.runs[r].task == t && q < r ==>
          w.runs[q].status == Failed)
    && (LifeStatus(w.tasks[t]) == Completed ==> HasDoneRun(w.runs, t))
    && (forall r :: r in w.runs && w.runs[r].task == t ==>
                      if LifeStatus(w.tasks[t]) == Active then w.runs[r].status !in {Done, Canceled}
                      else IsTerminal(w.runs[r].status))
  }

  ghost predicate OneShotsOk(w: Tables) {
    forall t :: t in w.tasks ==> Anchored(w, t) && (IsOneShotTask(w, t) ==> OneShotOk(w, t))
  }

  // ---------------------------------------------------------------- all of them

  ghost predicate BooksOk(w: Tables) {
    && RefsOk(w) && HistoryOk(w) && RunRevisionsOk(w) && TextsOk(w) && CountsOk(w) && IdleOk(w) && SlotsOk(w)
    && ArchivesOk(w) && OneShotsOk(w) && LogsOk(w)
  }

  /** The query for a task's schedule finds its only one. */
  lemma ScheduleFound(w: Tables, t: Id)
    requires RefsOk(w)
    ensures ScheduleOf(w, t).None? <==> forall s :: s in w.schedules ==> w.schedules[s].task != t
    ensures forall s :: s in w.schedules && w.schedules[s].task == t ==> ScheduleOf(w, t) == Some(s)
  {
    forall s | s in w.schedules && w.schedules[s].task == t ensures ScheduleOf(w, t) == Some(s) {
      ScheduleOfIs(w, s);
    }
  }

  /** In such tables the service's own test for one-shot work means what it says. */
  lemma OneShotTestIsRight(w: Tables, t: Id)
    requires RefsOk(w) && OneShotsOk(w) && t in w.tasks
    ensures IsOneShot(w, t) <==> IsOneShotTask(w, t)
  {
    hide RefsOk, OneShotOk, IsOneShotTask, IsOneShot;
    AnchoredTestIsRight(w, t);
  }

  lemma AnchoredTestIsRight(w: Tables, t: Id)
    requires RefsOk(w) && t in w.tasks && Anchored(w, t)
    ensures IsOneShot(w, t) <==> IsOneShotTask(w, t)
  {
    ScheduleFound(w, t);
    if ScheduleOf(w, t).None? {
      RunIdsComplete(w.runs, t, w.next);
      var r :| r in w.runs && w.runs[r].task == t && w.runs[r].createdAt == w.tasks[t].origin.createdAt;
      assert r in RunIdsOf(w.runs, t, w.next);
    }
  }

  /** The counter never needs the repair that moveWorkRun applies to it. */
  lemma RepairChangesNothing(w: Tables, s: Id)
    requires RefsOk(w) && CountsOk(w) && s in w.schedules
    ensures RepairedCount(w, w.schedules[s].task) == w.schedules[s].runCount
  {
    ScheduleFound(w, w.schedules[s].task);
  }

  /** No slot is ever filled twice: the branch of createDueWorkRun that reuses a run is never taken. */
  lemma SlotIsFree(w: Tables, s: Id)
    requires RefsOk(w) && CountsOk(w) && SlotsOk(w)
    requires s in w.schedules && w.schedules[s].status == Enabled && w.schedules[s].nextRunAt.Some?
    ensures var t := w.schedules[s].task;
            FirstFilling(w.runs, RunIdsOf(w.runs, t, w.next), t, w.schedules[s].nextRunAt.value).None?
  {
    var schedule := w.schedules[s];
    var t, slots := schedule.task, Slots(w.runs, schedule.task, w.next);
    assert ScheduleFits(schedule, slots);
    var ids := RunIdsOf(w.runs, t, w.next);
    match FirstFilling(w.runs, ids, t, schedule.nextRunAt.value)
    case None =>
    case Some(r) =>
      SlotsContain(w.runs, t, w.next, r);
      var i :| 0 <= i < |slots| && slots[i] == w.runs[r].scheduledFor;
      if schedule.kind == Recurring {
        SlotAtGrows(schedule.start.value, schedule.intervalMs.value, i, |slots|);
        assert false;
      } else {
        SlotsAreRuns(w.runs, t, w.next);
        assert false;
      }
  }

  lemma {:induction false} SlotAtGrows(start: Time, intervalMs: int, i: nat, j: nat)
    requires intervalMs >= 1 && i < j
    ensures SlotAt(start, intervalMs, i) < SlotAt(start, intervalMs, j)
  {
    if i < j - 1 { SlotAtGrows(start, intervalMs, i, j - 1); }
  }
}
