/** Every operation of WorkService keeps the life of one-shot tasks in order: at most the last run is
    open, an outcome closes the task, and a closed task stays closed. */
module OneShotsKept {
  import opened Prelude
  import opened WorkDomain
  import opened WorkOperations
  import opened Listings
  import opened WorkInvariants
  import opened RecordsKept
  import opened SchedulesKept

  ghost predicate LivesOk(w: Tables) {
    ArchivesOk(w) && OneShotsOk(w)
  }

  // ---------------------------------------------------------------- tasks an operation does not touch

  /** The task keeps its life status, and its runs their statuses. */
  ghost predicate SameLife(w: Tables, w': Tables, t: Id) {
    && t in w.tasks && t in w'.tasks
    && LifeStatus(w'.tasks[t]) == LifeStatus(w.tasks[t])
    && (w'.tasks[t].status == Archived ==>
          w.tasks[t].status == Archived || w.tasks[t].status in {Completed, TaskCanceled})
    && (forall r :: r in w'.runs && w'.runs[r].task == t ==>
                      r in w.runs && w.runs[r].task == t && w'.runs[r].status == w.runs[r].status)
    && (forall r :: r in w.runs && w.runs[r].task == t ==>
          r in w'.runs && w'.runs[r].task == t && w'.runs[r].status == w.runs[r].status)
  }

  lemma SameLifeKeepsOneShot(w: Tables, w': Tables, t: Id)
    requires t in w.tasks && OneShotOk(w, t) && SameLife(w, w', t)
    ensures OneShotOk(w', t)
  {
    if LifeStatus(w'.tasks[t]) == Completed {
      var r :| r in w.runs && w.runs[r].task == t && w.runs[r].status == Done;
      assert r in w'.runs && w'.runs[r].task == t && w'.runs[r].status == Done;
    }
  }

  lemma ProgressKeepsKinds(w: Tables, w': Tables, t: Id)
    requires SameSchedules(w.schedules, w'.schedules)
    ensures IsOneShotTask(w', t) <==> IsOneShotTask(w, t)
  {
    if IsOneShotTask(w', t) {
      forall s | s in w.schedules && w.schedules[s].task == t ensures w.schedules[s].kind == ScheduledOnce {
        assert w'.schedules[s].kind == ScheduledOnce;
      }
    }
  }

  lemma ProgressKeepsAnchor(w: Tables, w': Tables, t: Id)
    requires t in w.tasks && t in w'.tasks && Anchored(w, t)
    requires w'.tasks[t].origin == w.tasks[t].origin
    requires forall s :: s in w.schedules ==> s in w'.schedules && w'.schedules[s].task == w.schedules[s].task
    requires forall r :: r in w.runs ==>
               r in w'.runs && w'.runs[r].task == w.runs[r].task && w'.runs[r].createdAt == w.runs[r].createdAt
    ensures Anchored(w', t)
  {
    if s :| s in w.schedules && w.schedules[s].task == t {
      assert s in w'.schedules && w'.schedules[s].task == t;
    } else {
      var r :| r in w.runs && w.runs[r].task == t && w.runs[r].createdAt == w.tasks[t].origin.createdAt;
      assert r in w'.runs && w'.runs[r].task == t && w'.runs[r].createdAt == w'.tasks[t].origin.createdAt;
    }
  }

  /** An operation that makes progress on one task only has that task left to look at. */
  lemma OneTaskMoved(w: Tables, w': Tables, t: Id)
    requires OneShotsOk(w) && Progress(w, w')
    requires forall u :: u in w.tasks && u != t ==> SameLife(w, w', u)
    requires t in w.tasks && IsOneShotTask(w, t) ==> OneShotOk(w', t)
    ensures OneShotsOk(w')
  {
    forall u | u in w'.tasks ensures Anchored(w', u) && (IsOneShotTask(w', u) ==> OneShotOk(w', u)) {
      assert Anchored(w, u) && (IsOneShotTask(w, u) ==> OneShotOk(w, u));
      ProgressKeepsAnchor(w, w', u);
      ProgressKeepsKinds(w, w', u);
      if IsOneShotTask(w, u) && u != t { SameLifeKeepsOneShot(w, w', u); }
    }
  }

  // ---------------------------------------------------------------- moveWorkRun

  /** The open run of a one-shot task is its last, the ones before it failed, and the task is active. */
  lemma OpenRunIsLast(w: Tables, r: Id)
    requires r in w.runs && w.runs[r].task in w.tasks && !IsTerminal(w.runs[r].status)
    requires ArchivesOk(w) && OneShotOk(w, w.runs[r].task)
    ensures w.tasks[w.runs[r].task].status == Active
    ensures forall q :: q in w.runs && w.runs[q].task == w.runs[r].task && q != r ==>
              q < r && w.runs[q].status == Failed
  {
    var t := w.runs[r].task;
    assert forall q :: q in w.runs && w.runs[q].task == t && q != r ==> q < r || w.runs[r].status == Failed;
  }

  predicate NotArchivedNow(a: Task, b: Task) {
    b.status == Archived ==> a.status == Archived && a.metadata == b.metadata
  }

  /** What a move does to the run and, when the run ends, to its task. */
  lemma MoveRunEffect(w: Tables, input: MoveInput, now: Time)
    requires RefsOk(w) && OneShotsOk(w) && MoveRun(w, input, now).result.Ok?
    ensures input.run in w.runs && input.status in AllowedRunMoves(w.runs[input.run].status)
            && w.runs[input.run].task in w.tasks
    ensures var w' := MoveRun(w, input, now).work;
            var t := w.runs[input.run].task;
            && w'.runs.Keys == w.runs.Keys
            && w'.runs == w.runs[input.run := w'.runs[input.run]]
            && w'.runs[input.run].status == input.status && w'.runs[input.run].task == t
            && t in w'.tasks && w'.tasks == w.tasks[t := w'.tasks[t]]
            && NotArchivedNow(w.tasks[t], w'.tasks[t])
            && (if !IsTerminal(input.status) then w'.tasks[t] == w.tasks[t]
                else if IsOneShotTask(w, t) then w'.tasks[t].status == TaskStatusForTerminalRun(input.status)
                else true)
  {
    hide RefsOk, OneShotsOk, SettleTask, IsOneShotTask, ClosesWork, NotArchivedNow;
    var run := w.runs[input.run];
    var moved := MovedRun(run, input, now);
    var w1 := w.(runs := w.runs[input.run := moved]);
    var actor := Normalized(Some(input.actor)).value;
    var event := Event(input.run, now, actor, EventTypeFor(input.status), SummaryOr(input.summary, "Moved WorkRun."));
    var w2 := LogEvent(w1, event);
    MoveRunCloses(w, w2, input.run, moved);
    SettleTaskEffect(w2, run.task, input.status, Normalized(input.reason), now);
  }

  lemma SettleTaskEffect(w: Tables, t: Id, status: RunStatus, reason: Option<string>, now: Time)
    requires t in w.tasks
    ensures var w' := SettleTask(w, t, status, reason, now);
            && w'.runs == w.runs && t in w'.tasks && w'.tasks == w.tasks[t := w'.tasks[t]]
            && NotArchivedNow(w.tasks[t], w'.tasks[t])
            && (!IsTerminal(status) ==> w'.tasks[t] == w.tasks[t])
            && (IsTerminal(status) && ClosesWork(w, t) ==> w'.tasks[t].status == TaskStatusForTerminalRun(status))
  {
    hide ClosesWork, ScheduleOf, SettledSchedule;
  }

  lemma MoveRunCloses(w: Tables, w': Tables, r: Id, run: Run)
    requires RefsOk(w) && OneShotsOk(w) && r in w.runs
    requires w'.tasks == w.tasks && w'.schedules == w.schedules && w.next <= w'.next
    requires w'.runs == w.runs[r := run] && run.task == w.runs[r].task && run.createdAt == w.runs[r].createdAt
    ensures run.task in w.tasks && (IsOneShotTask(w, run.task) ==> ClosesWork(w', run.task))
  {
    hide OneShotOk, RepairedCount;
    if IsOneShotTask(w, run.task) {
      var t := run.task;
      if s :| s in w.schedules && w.schedules[s].task == t {
        ScheduleOfIs(w', s);
      } else {
        assert Anchored(w, t);
        AnchorIsListed(w, w', t);
      }
    }
  }

  lemma AnchorIsListed(w: Tables, w': Tables, t: Id)
    requires t in w.tasks && t in w'.tasks && Anchored(w, t) && w'.tasks[t].origin == w.tasks[t].origin
    requires w'.schedules == w.schedules && forall s :: s in w.schedules ==> w.schedules[s].task != t
    requires forall r :: r in w.runs ==>
               r in w'.runs && w'.runs[r].task == w.runs[r].task && w'.runs[r].createdAt == w.runs[r].createdAt
    requires forall r :: r in w'.runs ==> r < w'.next
    ensures IsOneShot(w', t)
  {
    ProgressKeepsAnchor(w, w', t);
    RunIdsComplete(w'.runs, t, w'.next);
    var q :| q in w'.runs && w'.runs[q].task == t && w'.runs[q].createdAt == w'.tasks[t].origin.createdAt;
    assert q in RunIdsOf(w'.runs, t, w'.next);
  }

  lemma MoveRunKeepsLives(w: Tables, input: MoveInput, now: Time)
    requires RefsOk(w) && LivesOk(w) && NonBlank(input.actor)
    ensures LivesOk(MoveRun(w, input, now).work)
  {
    hide MoveRun, Progress, OneShotsOk;
    var w' := MoveRun(w, input, now).work;
    if MoveRun(w, input, now).result.Ok? {
      MoveRunIsProgress(w, input, now);
      MoveRunEffect(w, input, now);
      MovedLife(w, w', input.run);
    } else {
      FailedMoveChangesNothing(w, input, now);
    }
  }

  lemma FailedMoveChangesNothing(w: Tables, input: MoveInput, now: Time)
    requires NonBlank(input.actor) && MoveRun(w, input, now).result.Err?
    ensures MoveRun(w, input, now).work == w
  {
  }

  lemma MovedLife(w: Tables, w': Tables, r: Id)
    requires LivesOk(w) && Progress(w, w') && r in w.runs && w.runs[r].task in w.tasks && r in w'.runs
    requires w'.runs[r].status in AllowedRunMoves(w.runs[r].status) && w'.runs == w.runs[r := w'.runs[r]]
    requires w'.runs[r].task == w.runs[r].task && w.runs[r].task in w'.tasks
    requires w'.tasks == w.tasks[w.runs[r].task := w'.tasks[w.runs[r].task]]
    requires var t := w.runs[r].task;
             if !IsTerminal(w'.runs[r].status) then w'.tasks[t] == w.tasks[t]
             else if IsOneShotTask(w, t) then w'.tasks[t].status == TaskStatusForTerminalRun(w'.runs[r].status)
             else true
    requires NotArchivedNow(w.tasks[w.runs[r].task], w'.tasks[w.runs[r].task])
    ensures LivesOk(w')
  {
    hide Progress, OneShotsOk, OneShotOk, IsOneShotTask;
    var t := w.runs[r].task;
    assert IsOneShotTask(w, t) ==> OneShotOk(w', t) by {
      if IsOneShotTask(w, t) { MovedOneShot(w, w', r); }
    }
    OneTaskMoved(w, w', t);
  }

  lemma MovedOneShot(w: Tables, w': Tables, r: Id)
    requires LivesOk(w) && r in w.runs && w.runs[r].task in w.tasks && r in w'.runs
    requires w'.runs[r].status in AllowedRunMoves(w.runs[r].status) && w'.runs == w.runs[r := w'.runs[r]]
    requires w'.runs[r].task == w.runs[r].task && w.runs[r].task in w'.tasks && IsOneShotTask(w, w.runs[r].task)
    requires var t := w.runs[r].task;
             if !IsTerminal(w'.runs[r].status) then w'.tasks[t] == w.tasks[t]
             else w'.tasks[t].status == TaskStatusForTerminalRun(w'.runs[r].status)
    ensures OneShotOk(w', w.runs[r].task)
  {
    var t := w.runs[r].task;
    assert OneShotOk(w, t);
    OpenRunIsLast(w, r);
    EndedOneShot(w, w', r, t);
  }

  lemma EndedOneShot(w: Tables, w': Tables, r: Id, t: Id)
    requires t in w.tasks && w.tasks[t].status == Active && r in w.runs && w.runs[r].task == t && t in w'.tasks
    requires r in w'.runs && w'.runs == w.runs[r := w'.runs[r]] && w'.runs[r].task == t
    requires w'.runs[r].status in AllowedRunMoves(w.runs[r].status)
    requires forall q :: q in w.runs && w.runs[q].task == t && q != r ==> q < r && w.runs[q].status == Failed
    requires if !IsTerminal(w'.runs[r].status) then w'.tasks[t] == w.tasks[t]
             else w'.tasks[t].status == TaskStatusForTerminalRun(w'.runs[r].status)
    ensures OneShotOk(w', t)
  {
    assert forall q :: q in w'.runs && w'.runs[q].task == t && q != r ==> q < r && w'.runs[q].status == Failed;
    if w'.runs[r].status == Done {
      assert HasDoneRun(w'.runs, t);
    }
  }

  // ---------------------------------------------------------------- cancelWorkTask

  /** Afterwards the listed runs that were open are canceled; every other run is as it was. */
  lemma {:induction false} CancelRunsEffect(w: Tables, ids: seq<Id>, actor: string, reason: string, now: Time)
    requires forall i :: 0 <= i < |ids| ==> ids[i] in w.runs
    ensures var w' := CancelRuns(w, ids, actor, reason, now);
            forall r :: r in w.runs ==>
                          w'.runs[r] == if r in ids && !IsTerminal(w.runs[r].status) then
                            CanceledRun(w.runs[r], reason, now) else w.runs[r]
  {
    if ids != [] {
      var rest, last := ids[..|ids| - 1], ids[|ids| - 1];
      CancelRunsEffect(w, rest, actor, reason, now);
      assert forall r :: r in ids <==> r in rest || r == last by { assert ids == rest + [last]; }
      CancelOneRunEffect(CancelRuns(w, rest, actor, reason, now), last, actor, reason, now);
    }
  }

  lemma CancelOneRunEffect(w: Tables, last: Id, actor: string, reason: string, now: Time)
    requires last in w.runs
    ensures CancelOneRun(w, last, actor, reason, now).runs
            == if IsTerminal(w.runs[last].status) then w.runs
               else w.runs[last := CanceledRun(w.runs[last], reason, now)]
  {
  }

  /** Every run of the task is terminal afterwards, ended runs are untouched, and so is every run of
      another task. */
  lemma CancelTaskEffect(w: Tables, t: Id, actor: string, reason: Option<string>, now: Time)
    requires RefsOk(w) && CancelTask(w, t, actor, reason, now).result.Ok?
    ensures t in w.tasks && w.tasks[t].status != Archived && Normalized(reason).Some?
    ensures var w' := CancelTask(w, t, actor, reason, now).work;
            && w'.tasks == w.tasks[t := CanceledTask(w.tasks[t], Normalized(reason), now)]
            && w'.schedules == CancelSchedules(w.schedules, t, Normalized(reason).value, now)
            && w'.revisions == w.revisions && w'.runs.Keys == w.runs.Keys
            && forall r :: r in w.runs ==>
                             w'.runs[r] == if w.runs[r].task == t && !IsTerminal(w.runs[r].status)
                                           then CanceledRun(w.runs[r], Normalized(reason).value, now) else w.runs[r]
  {
    var why := Normalized(reason);
    var w1 := w.(tasks := w.tasks[t := CanceledTask(w.tasks[t], why, now)],
                 schedules := CancelSchedules(w.schedules, t, why.value, now));
    CancelRunsEffect(w1, RunIdsOf(w.runs, t, w.next), Normalized(Some(actor)).value, why.value, now);
    RunIdsComplete(w.runs, t, w.next);
  }

  lemma CancelTaskKeepsLives(w: Tables, t: Id, actor: string, reason: Option<string>, now: Time)
    requires RefsOk(w) && LivesOk(w)
    ensures LivesOk(CancelTask(w, t, actor, reason, now).work)
  {
    hide CancelTask, Progress, OneShotsOk;
    var w' := CancelTask(w, t, actor, reason, now).work;
    if CancelTask(w, t, actor, reason, now).result.Ok? {
      CancelTaskIsProgress(w, t, actor, reason, now);
      CancelTaskEffect(w, t, actor, reason, now);
      CanceledLife(w, w', t, Normalized(reason).value, now);
      OneTaskMoved(w, w', t);
    } else {
      FailedCancelChangesNothing(w, t, actor, reason, now);
    }
  }

  lemma FailedCancelChangesNothing(w: Tables, t: Id, actor: string, reason: Option<string>, now: Time)
    requires CancelTask(w, t, actor, reason, now).result.Err?
    ensures CancelTask(w, t, actor, reason, now).work == w
  {
  }

  lemma CanceledLife(w: Tables, w': Tables, t: Id, reason: string, now: Time)
    requires OneShotsOk(w) && t in w.tasks && t in w'.tasks && w'.tasks[t].status == TaskCanceled
    requires w'.runs.Keys == w.runs.Keys
    requires forall r :: r in w.runs ==>
                           w'.runs[r] == if w.runs[r].task == t && !IsTerminal(w.runs[r].status)
                                         then CanceledRun(w.runs[r], reason, now) else w.runs[r]
    ensures IsOneShotTask(w, t) ==> OneShotOk(w', t)
  {
    if IsOneShotTask(w, t) {
      hide IsOneShotTask, Anchored;
      assert OneShotOk(w, t);
      forall q, r | q in w'.runs && r in w'.runs && w'.runs[q].task == t && w'.runs[r].task == t && q < r
        ensures w'.runs[q].status == Failed
      {
        assert w.runs[q].status == Failed;
      }
    }
  }

  // ---------------------------------------------------------------- moveWorkSchedule, archive and restore

  /** A one-shot task whose schedule can still be canceled has no run yet. */
  lemma LiveOnceHasNoRuns(w: Tables, s: Id)
    requires RefsOk(w) && SchedulesOk(w) && s in w.schedules
    requires IsLive(w.schedules[s].status) && w.schedules[s].kind == ScheduledOnce
    ensures forall r :: r in w.runs ==> w.runs[r].task != w.schedules[s].task
  {
    RunIdsComplete(w.runs, w.schedules[s].task, w.next);
    assert ScheduleFits(w.schedules[s], Slots(w.runs, w.schedules[s].task, w.next));
    assert |RunIdsOf(w.runs, w.schedules[s].task, w.next)| == 0;
  }

  lemma MoveScheduleKeepsLives(w: Tables, s: Id, move: ScheduleMove, reason: Option<string>, now: Time)
    requires RefsOk(w) && SchedulesOk(w) && LivesOk(w)
    ensures LivesOk(MoveSchedule(w, s, move, reason, now).work)
  {
    hide Progress, OneShotsOk, RefsOk, SchedulesOk;
    var w' := MoveSchedule(w, s, move, reason, now).work;
    if w' != w {
      RefsKeepEvents(w);
      MoveScheduleIsProgress(w, s, move, reason, now);
      CanceledScheduleLife(w, s, move, reason, now);
      OneTaskMoved(w, w', w.schedules[s].task);
    }
  }

  lemma RefsKeepEvents(w: Tables)
    requires RefsOk(w)
    ensures EventsOk(w)
  {
  }

  lemma CanceledScheduleLife(w: Tables, s: Id, move: ScheduleMove, reason: Option<string>, now: Time)
    requires RefsOk(w) && SchedulesOk(w) && OneShotsOk(w) && s in w.schedules
    requires MoveSchedule(w, s, move, reason, now).work != w
    ensures var w' := MoveSchedule(w, s, move, reason, now).work;
            var t := w.schedules[s].task;
            t in w.tasks && t in w'.tasks && (IsOneShotTask(w, t) ==> OneShotOk(w', t))
  {
    var w' := MoveSchedule(w, s, move, reason, now).work;
    var t := w.schedules[s].task;
    hide SchedulesOk, OneSchedule, KeyFits;
    if IsOneShotTask(w, t) {
      assert OneShotOk(w, t);
      LiveOnceHasNoRuns(w, s);
      if w'.tasks == w.tasks { SameLifeKeepsOneShot(w, w', t); }
    }
  }

  lemma ArchiveKeepsLives(w: Tables, t: Id, actor: string, reason: Option<string>, now: Time)
    requires RefsOk(w) && LivesOk(w)
    ensures LivesOk(ArchiveTask(w, t, actor, reason, now).work)
  {
    hide Progress, OneShotsOk, RefsOk, ArchivedTask, StatusBeforeArchive;
    var w' := ArchiveTask(w, t, actor, reason, now).work;
    ArchiveKeepsArchives(w, t, actor, reason, now);
    if w' != w {
      RefsKeepEvents(w);
      ArchiveAndRestoreAreProgress(w, t, actor, reason, now);
      ArchiveRemembers(w.tasks[t], Normalized(Some(actor)).value, Normalized(reason), now);
      assert w'.tasks[t] == ArchivedTask(w.tasks[t], Normalized(Some(actor)).value, Normalized(reason), now);
      ArchivedHasStatus(w.tasks[t], Normalized(Some(actor)).value, Normalized(reason), now);
      TaskAloneKeepsLife(w, w', t);
      OneTaskMoved(w, w', t);
    }
  }

  lemma ArchivedHasStatus(task: Task, actor: string, reason: Option<string>, now: Time)
    ensures ArchivedTask(task, actor, reason, now).status == Archived
  {
  }

  lemma RestoreKeepsLives(w: Tables, t: Id, actor: string, now: Time)
    requires RefsOk(w) && LivesOk(w)
    ensures LivesOk(RestoreTask(w, t, actor, now).work)
  {
    hide Progress, OneShotsOk, RefsOk;
    var w' := RestoreTask(w, t, actor, now).work;
    if w' != w {
      RefsKeepEvents(w);
      ArchiveAndRestoreAreProgress(w, t, actor, None, now);
      TaskAloneKeepsLife(w, w', t);
      OneTaskMoved(w, w', t);
    }
  }

  /** Changing a task without changing its life status keeps its one-shot promise. */
  lemma TaskAloneKeepsLife(w: Tables, w': Tables, t: Id)
    requires OneShotsOk(w) && t in w.tasks && t in w'.tasks
    requires w'.runs == w.runs && LifeStatus(w'.tasks[t]) == LifeStatus(w.tasks[t])
    ensures IsOneShotTask(w, t) ==> OneShotOk(w', t)
  {
    if IsOneShotTask(w, t) { assert OneShotOk(w, t); }
  }

  // ---------------------------------------------------------------- reviseWorkTask, recordWorkRunEvent

  lemma RecordEventKeepsLives(w: Tables, r: Id, actor: string, eventType: string, summary: string, now: Time)
    requires RefsOk(w) && LivesOk(w)
    ensures LivesOk(RecordEvent(w, r, actor, eventType, summary, now).work)
  {
    hide Progress, OneShotsOk, RefsOk;
    var w' := RecordEvent(w, r, actor, eventType, summary, now).work;
    if w' != w {
      RefsKeepEvents(w);
      RecordEventIsProgress(w, r, actor, eventType, summary, now);
      OneRunTaskKeepsLife(w, w', r);
    }
  }

  lemma OneRunTaskKeepsLife(w: Tables, w': Tables, r: Id)
    requires RefsOk(w) && OneShotsOk(w) && Progress(w, w') && r in w.runs && w'.runs == w.runs && w'.tasks == w.tasks
    ensures OneShotsOk(w')
  {
    hide Progress, OneShotsOk, OneShotOk, IsOneShotTask, LifeStatus;
    assert w.runs[r].task in w.tasks;
    hide RefsOk;
    TaskAloneKeepsLife(w, w', w.runs[r].task);
    OneTaskMoved(w, w', w.runs[r].task);
  }

  lemma ReviseTaskKeepsLives(w: Tables, input: ReviseInput, now: Time)
    requires RefsOk(w) && LivesOk(w)
    ensures LivesOk(ReviseTask(w, input, now).work)
  {
    hide OneShotsOk, RefsOk, ApplyRevision;
    if ReviseTask(w, input, now).result.Ok? {
      var task := RevisedTask(w.tasks[input.task], input, now).value;
      ApplyRevisionKeepsLives(w, input.task, task, input.sourceRun,
                              Normalized(Some(input.actor)).value, Normalized(Some(input.reason)).value, now);
    }
  }

  lemma ApplyRevisionKeepsLives(w: Tables, t: Id, task: Task, source: Option<Id>, actor: string, reason: string,
                                now: Time)
    requires LivesOk(w) && t in w.tasks && w.tasks[t].status == Active && task.status == Active
    requires task.origin == w.tasks[t].origin && (source.Some? ==> source.value in w.runs)
    ensures LivesOk(ApplyRevision(w, t, task, source, actor, reason, now))
  {
    hide ArchivesOk, OneShotOk;
    var w' := ApplyRevision(w, t, task, source, actor, reason, now);
    assert ArchivesOk(w') by { SameStatusesKeepArchives(w, w', t); }
    forall u | u in w'.tasks ensures Anchored(w', u) && (IsOneShotTask(w', u) ==> OneShotOk(w', u)) {
      assert Anchored(w, u) && (IsOneShotTask(w, u) ==> OneShotOk(w, u));
      ProgressKeepsAnchor(w, w', u);
      if IsOneShotTask(w, u) { SameLifeKeepsOneShot(w, w', u); }
    }
  }

  lemma SameStatusesKeepArchives(w: Tables, w': Tables, t: Id)
    requires ArchivesOk(w) && t in w'.tasks && w'.tasks[t].status == Active
    requires forall u :: u in w'.tasks && u != t ==> u in w.tasks && w'.tasks[u] == w.tasks[u]
    ensures ArchivesOk(w')
  {
  }

  // ---------------------------------------------------------------- operations that add a run or a task

  /** A new queued run for a task whose runs have all failed, and which is active. */
  lemma NewRunKeepsLives(w: Tables, w': Tables, run: Run)
    requires RefsOk(w) && LivesOk(w) && run.task in w.tasks && run.status == Queued
    requires w'.runs == w.runs[w.next := run]
    requires w'.tasks.Keys == w.tasks.Keys && (forall t :: t in w.tasks ==> SameStanding(w.tasks[t], w'.tasks[t]))
    requires SameSchedules(w.schedules, w'.schedules)
    requires IsOneShotTask(w, run.task) ==>
               && w.tasks[run.task].status == Active
               && forall r :: r in w.runs && w.runs[r].task == run.task ==> w.runs[r].status == Failed
    ensures LivesOk(w')
  {
    hide RefsOk, OneShotOk, Anchored, IsOneShotTask;
    assert w.next !in w.runs && forall r :: r in w.runs ==> r < w.next by { RunsAreOld(w); }
    forall u | u in w'.tasks ensures Anchored(w', u) && (IsOneShotTask(w', u) ==> OneShotOk(w', u)) {
      assert Anchored(w, u) && (IsOneShotTask(w, u) ==> OneShotOk(w, u));
      ProgressKeepsAnchor(w, w', u);
      ProgressKeepsKinds(w, w', u);
      if IsOneShotTask(w, u) {
        if u != run.task { SameLifeKeepsOneShot(w, w', u); } else { NewRunIsLast(w, w', run); }
      }
    }
  }

  predicate SameStanding(a: Task, b: Task) {
    a.origin == b.origin && a.status == b.status && a.metadata == b.metadata
  }

  lemma RunsAreOld(w: Tables)
    requires RefsOk(w)
    ensures forall r :: r in w.runs ==> r < w.next
  {
  }

  lemma NewRunIsLast(w: Tables, w': Tables, run: Run)
    requires forall r :: r in w.runs ==> r < w.next
    requires w'.runs == w.runs[w.next := run] && run.status == Queued
    requires run.task in w'.tasks && w'.tasks[run.task].status == Active
    requires forall r :: r in w.runs && w.runs[r].task == run.task ==> w.runs[r].status == Failed
    ensures OneShotOk(w', run.task)
  {
  }

  lemma CreateDueRunKeepsLives(w: Tables, s: Id, actor: string, directory: set<string>, now: Time)
    requires RefsOk(w) && SchedulesOk(w) && LivesOk(w) && NonBlank(actor)
    ensures LivesOk(CreateDueRun(w, s, actor, directory, now).work)
  {
    hide RefsOk, SchedulesOk, LivesOk, AdvanceSchedule, CountRun;
    var w' := CreateDueRun(w, s, actor, directory, now).work;
    if CreateDueRun(w, s, actor, directory, now).result.Ok? {
      CreateDueRunEffect(w, s, actor, directory, now);
      FiringFindsNoRuns(w, s);
      AdvancedKeepsKind(w.schedules[s], now);
      NewRunKeepsLives(w, w', w'.runs[w.next]);
    }
  }

  lemma AdvancedKeepsKind(schedule: Schedule, now: Time)
    ensures forall slot :: AdvanceSchedule(CountRun(schedule, now), slot, now).kind == schedule.kind
                           && AdvanceSchedule(CountRun(schedule, now), slot, now).task == schedule.task
  {
  }

  lemma FiringFindsNoRuns(w: Tables, s: Id)
    requires RefsOk(w) && SchedulesOk(w) && s in w.schedules && w.schedules[s].status == Enabled
    ensures w.schedules[s].task in w.tasks && w.tasks[w.schedules[s].task].status == Active
    ensures IsOneShotTask(w, w.schedules[s].task) ==> forall r :: r in w.runs ==> w.runs[r].task != w.schedules[s].task
  {
    if IsOneShotTask(w, w.schedules[s].task) { LiveOnceHasNoRuns(w, s); }
  }

  lemma RetryRunKeepsLives(w: Tables, r: Id, actor: string, assignee: Option<string>, directory: set<string>, now: Time)
    requires RefsOk(w) && LivesOk(w)
    ensures LivesOk(RetryRun(w, r, actor, assignee, directory, now).work)
  {
    hide LivesOk, RetryRun, RefsOk, IsOneShotTask, CountRunOf;
    var w' := RetryRun(w, r, actor, assignee, directory, now).work;
    if RetryRun(w, r, actor, assignee, directory, now).result.Err? {
      FailedRetryChangesNothing(w, r, actor, assignee, directory, now);
    } else {
      RetryEffect(w, r, actor, assignee, directory, now);
      CountRunTouchesOne(w, w.runs[r].task, now);
      RetryFindsOnlyFailures(w, r, actor, assignee, directory, now);
      NewRunKeepsLives(w, w', w'.runs[w.next]);
    }
  }

  lemma FailedRetryChangesNothing(w: Tables, r: Id, actor: string, assignee: Option<string>, directory: set<string>,
                                  now: Time)
    requires RetryRun(w, r, actor, assignee, directory, now).result.Err?
    ensures RetryRun(w, r, actor, assignee, directory, now).work == w
  {
  }

  lemma RetryGuards(w: Tables, r: Id, actor: string, assignee: Option<string>, directory: set<string>, now: Time)
    requires RetryRun(w, r, actor, assignee, directory, now).result.Ok?
    ensures r in w.runs && w.runs[r].status == Failed && w.runs[r].task in w.tasks
            && w.tasks[w.runs[r].task].status == Active
    ensures FirstActive(w.runs, RunIdsOf(w.runs, w.runs[r].task, w.next)).None?
  {
  }

  lemma RetryFindsOnlyFailures(w: Tables, r: Id, actor: string, assignee: Option<string>, directory: set<string>,
                               now: Time)
    requires RefsOk(w) && LivesOk(w) && RetryRun(w, r, actor, assignee, directory, now).result.Ok?
    ensures r in w.runs && w.runs[r].task in w.tasks
    ensures var t := w.runs[r].task;
            && w.tasks[t].status == Active
            && (IsOneShotTask(w, t) ==> forall q :: q in w.runs && w.runs[q].task == t ==> w.runs[q].status == Failed)
  {
    hide RetryRun, RefsOk;
    RetryGuards(w, r, actor, assignee, directory, now);
    RunsAreOld(w);
    var t := w.runs[r].task;
    if IsOneShotTask(w, t) {
      hide IsOneShotTask, ArchivesOk, FirstActive;
      assert OneShotOk(w, t);
      NoActiveRunMeansFailures(w, t);
    }
  }

  /** Where no run of an active one-shot task is active, all of them have failed. */
  lemma NoActiveRunMeansFailures(w: Tables, t: Id)
    requires t in w.tasks && w.tasks[t].status == Active && OneShotOk(w, t)
             && FirstActive(w.runs, RunIdsOf(w.runs, t, w.next)).None?
    requires forall r :: r in w.runs ==> r < w.next
    ensures forall q :: q in w.runs && w.runs[q].task == t ==> w.runs[q].status == Failed
  {
    RunIdsComplete(w.runs, t, w.next);
    var ids := RunIdsOf(w.runs, t, w.next);
    forall q | q in w.runs && w.runs[q].task == t ensures w.runs[q].status == Failed {
      assert q in ids;
    }
  }

  lemma CreateWorkKeepsLives(w: Tables, input: CreateInput, directory: set<string>, now: Time)
    requires RefsOk(w) && LivesOk(w)
    ensures LivesOk(CreateWork(w, input, directory, now).work)
  {
    hide RefsOk, LivesOk;
    var w' := CreateWork(w, input, directory, now).work;
    if w' != w {
      CreateWorkEffect(w, input, directory, now);
      NewTaskKeepsLives(w, w', w.next);
    }
  }

  /** The new task is active and anchored, or scheduled and without runs; nothing else changes. */
  lemma CreateWorkEffect(w: Tables, input: CreateInput, directory: set<string>, now: Time)
    requires RefsOk(w) && CreateWork(w, input, directory, now).result.Ok?
    ensures var w' := CreateWork(w, input, directory, now).work;
            var t := w.next;
            && w'.tasks.Keys == w.tasks.Keys + {t} && (forall u :: u in w.tasks ==> w'.tasks[u] == w.tasks[u])
            && w'.tasks[t].status == Active
            && (if NeedsSchedule(input.kind) then
                  && w'.runs == w.runs && t + 1 in w'.schedules && w'.schedules[t + 1].task == t
                  && w'.schedules == w.schedules[t + 1 := w'.schedules[t + 1]]
                else
                  && w'.schedules == w.schedules && t + 1 in w'.runs && w'.runs == w.runs[t + 1 := w'.runs[t + 1]]
                  && w'.runs[t + 1].task == t && w'.runs[t + 1].status == Queued
                  && w'.runs[t + 1].createdAt == w'.tasks[t].origin.createdAt)
  {
    hide RefsOk, ScheduleOf;
    var task := NewTask(input, now).value;
    NewTaskHasNoSchedule(w, task);
  }

  lemma NewTaskHasNoSchedule(w: Tables, task: Task)
    requires RefsOk(w)
    ensures ScheduleOf(InsertTask(w, task), w.next).None? && w.next !in w.tasks
  {
    var w1 := InsertTask(w, task);
    if s :| ScheduleOf(w1, w.next) == Some(s) { assert false; }
  }

  lemma NewTaskKeepsLives(w: Tables, w': Tables, t: Id)
    requires RefsOk(w) && LivesOk(w) && t == w.next
    requires w'.tasks.Keys == w.tasks.Keys + {t} && (forall u :: u in w.tasks ==> w'.tasks[u] == w.tasks[u])
    requires w'.tasks[t].status == Active
    requires || (w'.runs == w.runs && t + 1 in w'.schedules && w'.schedules[t + 1].task == t
                 && w'.schedules == w.schedules[t + 1 := w'.schedules[t + 1]])
             || (w'.schedules == w.schedules && t + 1 in w'.runs && w'.runs == w.runs[t + 1 := w'.runs[t + 1]]
                 && w'.runs[t + 1].task == t && w'.runs[t + 1].status == Queued
                 && w'.runs[t + 1].createdAt == w'.tasks[t].origin.createdAt)
    ensures LivesOk(w')
  {
    hide RefsOk, Anchored, OneShotOk, IsOneShotTask;
    NewTaskIsInOrder(w, w', t);
    NewTaskKeepsArchives(w, w', t);
    assert t !in w.tasks by { RefsOfTasks(w); }
    hide ArchivesOk;
    forall u | u in w'.tasks ensures Anchored(w', u) && (IsOneShotTask(w', u) ==> OneShotOk(w', u)) {
      if u != t { OldTaskStaysInOrder(w, w', t, u); }
    }
  }

  lemma RefsOfTasks(w: Tables)
    requires RefsOk(w)
    ensures w.next !in w.tasks
  {
  }

  lemma NewTaskKeepsArchives(w: Tables, w': Tables, t: Id)
    requires ArchivesOk(w) && w'.tasks.Keys == w.tasks.Keys + {t}
             && (forall u :: u in w.tasks ==> w'.tasks[u] == w.tasks[u])
    requires w'.tasks[t].status == Active
    ensures ArchivesOk(w')
  {
  }

  lemma NewTaskIsInOrder(w: Tables, w': Tables, t: Id)
    requires RefsOk(w) && t == w.next && t in w'.tasks && w'.tasks[t].status == Active
    requires || (w'.runs == w.runs && t + 1 in w'.schedules && w'.schedules[t + 1].task == t)
             || (t + 1 in w'.runs && w'.runs == w.runs[t + 1 := w'.runs[t + 1]]
                 && w'.runs[t + 1].task == t && w'.runs[t + 1].status == Queued
                 && w'.runs[t + 1].createdAt == w'.tasks[t].origin.createdAt)
    ensures Anchored(w', t) && OneShotOk(w', t)
  {
  }

  lemma OldTaskStaysInOrder(w: Tables, w': Tables, t: Id, u: Id)
    requires RefsOk(w) && OneShotsOk(w) && t == w.next && u in w.tasks && u in w'.tasks && u != t
             && w'.tasks[u] == w.tasks[u]
    requires || (w'.runs == w.runs && t + 1 in w'.schedules && w'.schedules[t + 1].task == t
                 && w'.schedules == w.schedules[t + 1 := w'.schedules[t + 1]])
             || (w'.schedules == w.schedules && t + 1 in w'.runs && w'.runs == w.runs[t + 1 := w'.runs[t + 1]]
                 && w'.runs[t + 1].task == t)
    ensures Anchored(w', u) && (IsOneShotTask(w', u) ==> OneShotOk(w', u))
  {
    hide OneShotOk, LifeStatus, OneSchedule, KeyFits;
    assert Anchored(w, u) && (IsOneShotTask(w, u) ==> OneShotOk(w, u));
    hide OneShotsOk;
    OldRecordsStay(w, w', t);
    hide RefsOk;
    ProgressKeepsAnchor(w, w', u);
    if IsOneShotTask(w', u) {
      SameLifeKeepsOneShot(w, w', u);
    }
  }

  lemma OldRecordsStay(w: Tables, w': Tables, t: Id)
    requires RefsOk(w) && t == w.next
    requires w'.runs == w.runs || (t + 1 in w'.runs && w'.runs == w.runs[t + 1 := w'.runs[t + 1]])
    requires w'.schedules == w.schedules || (t + 1 in w'.schedules
                                             && w'.schedules == w.schedules[t + 1 := w'.schedules[t + 1]])
    ensures forall s :: s in w.schedules ==> s in w'.schedules && w'.schedules[s] == w.schedules[s]
    ensures forall r :: r in w.runs ==> r in w'.runs && w'.runs[r] == w.runs[r]
  {
  }
}
