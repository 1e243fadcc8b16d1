/** What no operation of WorkService ever takes back: records keep their identity, ended runs stay ended,
    revisions only grow, dead schedules stay dead, and a one-shot task that is over stays over. */
module WorkHistory {
  import opened Prelude
  import opened WorkDomain
  import opened WorkOperations
  import opened RunLog
  import opened WorkInvariants
  import opened RecordsKept
  import opened SchedulesKept
  import opened OneShotsKept
  import opened BooksKept

  predicate RunGoesOn(a: Run, b: Run) {
    && a.task == b.task && a.assignee == b.assignee && a.triggeredBy == b.triggeredBy
    && a.scheduledFor == b.scheduledFor && a.createdAt == b.createdAt
    && a.taskRevision <= b.taskRevision
    && (IsTerminal(a.status) ==> b == a)
  }

  ghost predicate RunsGoOn(a: map<Id, Run>, b: map<Id, Run>) {
    forall r :: r in a ==> r in b && RunGoesOn(a[r], b[r])
  }

  ghost predicate TasksGoOn(a: map<Id, Task>, b: map<Id, Task>) {
    forall t :: t in a ==>
      t in b && a[t].origin == b[t].origin && a[t].owner == b[t].owner && a[t].revision <= b[t].revision
  }

  /** Kind, start, interval and limit of a schedule never change. */
  predicate SamePlan(a: Schedule, b: Schedule) {
    a.kind == b.kind && a.start == b.start && a.intervalMs == b.intervalMs && a.maxRuns == b.maxRuns
  }

  ghost predicate SchedulesGoOn(a: map<Id, Schedule>, b: map<Id, Schedule>) {
    forall s :: s in a ==>
                  && s in b && a[s].task == b[s].task && SamePlan(a[s], b[s]) && a[s].runCount <= b[s].runCount
                  && (!IsLive(a[s].status) ==> !IsLive(b[s].status))
  }

  /** Revisions are immutable. */
  ghost predicate RevisionsStay(a: map<RevisionKey, Revision>, b: map<RevisionKey, Revision>) {
    forall k :: k in a ==> k in b && b[k] == a[k]
  }

  /** A one-shot task that is over: nothing will run for it again. */
  ghost predicate IsOver(w: Tables, t: Id) {
    t in w.tasks && IsOneShotTask(w, t) && LifeStatus(w.tasks[t]) != Active
  }

  ghost predicate StaysOver(w: Tables, w': Tables, t: Id) {
    IsOver(w', t) && forall r :: r in w'.runs && w'.runs[r].task == t ==> r in w.runs
  }

  ghost predicate GoesOn(w: Tables, w': Tables) {
    && w.next <= w'.next
    && RunsGoOn(w.runs, w'.runs) && TasksGoOn(w.tasks, w'.tasks) && SchedulesGoOn(w.schedules, w'.schedules)
    && RevisionsStay(w.revisions, w'.revisions)
    && (forall t :: IsOver(w, t) ==> StaysOver(w, w', t))
  }

  lemma GoesOnReflexive(w: Tables)
    ensures GoesOn(w, w)
  {
  }

  lemma RunsGoOnTransitive(a: map<Id, Run>, b: map<Id, Run>, c: map<Id, Run>)
    requires RunsGoOn(a, b) && RunsGoOn(b, c)
    ensures RunsGoOn(a, c)
  {
  }

  lemma GoesOnTransitive(a: Tables, b: Tables, c: Tables)
    requires GoesOn(a, b) && GoesOn(b, c)
    ensures GoesOn(a, c)
  {
    hide IsOver, RunGoesOn;
    RunsGoOnTransitive(a.runs, b.runs, c.runs);
    forall t | IsOver(a, t) ensures StaysOver(a, c, t) {
      assert StaysOver(a, b, t) && StaysOver(b, c, t);
      OverRunsAreOld(a, b, c, t);
    }
  }

  lemma OverRunsAreOld(a: Tables, b: Tables, c: Tables, t: Id)
    requires StaysOver(a, b, t) && StaysOver(b, c, t) && RunsGoOn(b.runs, c.runs)
    ensures StaysOver(a, c, t)
  {
  }

  // ---------------------------------------------------------------- operations that touch one task

  /** Progress of one task, with ended runs left alone and dead schedules left dead. */
  ghost predicate OneTaskGoesOn(w: Tables, w': Tables, t: Id) {
    && Progress(w, w')
    && (forall r :: r in w.runs && r in w'.runs && IsTerminal(w.runs[r].status) ==> w'.runs[r] == w.runs[r])
    && (forall s :: s in w.schedules && s in w'.schedules ==>
                      && w.schedules[s].runCount <= w'.schedules[s].runCount
                      && SamePlan(w.schedules[s], w'.schedules[s])
                      && (!IsLive(w.schedules[s].status) ==> !IsLive(w'.schedules[s].status)))
    && (forall u :: u in w.tasks && u in w'.tasks && u != t ==> w'.tasks[u] == w.tasks[u])
    && (IsOver(w, t) && t in w'.tasks ==> LifeStatus(w'.tasks[t]) != Active)
  }

  lemma OneTaskGoesOnIsGoingOn(w: Tables, w': Tables, t: Id)
    requires OneTaskGoesOn(w, w', t)
    ensures GoesOn(w, w')
  {
    forall u | IsOver(w, u) ensures StaysOver(w, w', u) {
      ProgressKeepsKinds(w, w', u);
    }
  }

  lemma MoveScheduleGoesOn(w: Tables, s: Id, move: ScheduleMove, reason: Option<string>, now: Time)
    requires BooksOk(w)
    ensures GoesOn(w, MoveSchedule(w, s, move, reason, now).work)
  {
    hide *;
    BooksHaveGroups(w);
    GoesOnReflexive(w);
    if s in w.schedules {
      MoveScheduleIsProgress(w, s, move, reason, now);
      MovedScheduleGoesOn(w, s, move, reason, now);
      OneTaskGoesOnIsGoingOn(w, MoveSchedule(w, s, move, reason, now).work, w.schedules[s].task);
    } else {
      MissingScheduleStays(w, s, move, reason, now);
    }
  }

  lemma MissingScheduleStays(w: Tables, s: Id, move: ScheduleMove, reason: Option<string>, now: Time)
    requires s !in w.schedules
    ensures MoveSchedule(w, s, move, reason, now).work == w
  {
  }

  lemma MovedScheduleGoesOn(w: Tables, s: Id, move: ScheduleMove, reason: Option<string>, now: Time)
    requires s in w.schedules && Progress(w, MoveSchedule(w, s, move, reason, now).work)
    ensures OneTaskGoesOn(w, MoveSchedule(w, s, move, reason, now).work, w.schedules[s].task)
  {
    hide Progress, MoveSchedule, IsOver;
    var t := w.schedules[s].task;
    MoveScheduleTouches(w, s, move, reason, now);
    if IsOver(w, t) { OverIsNotActive(w, t); }
  }

  lemma MoveScheduleTouches(w: Tables, s: Id, move: ScheduleMove, reason: Option<string>, now: Time)
    requires s in w.schedules
    ensures var w' := MoveSchedule(w, s, move, reason, now).work;
            && w'.runs == w.runs && s in w'.schedules && w'.schedules == w.schedules[s := w'.schedules[s]]
            && w.schedules[s].runCount == w'.schedules[s].runCount && SamePlan(w.schedules[s], w'.schedules[s])
            && (!IsLive(w.schedules[s].status) ==> !IsLive(w'.schedules[s].status))
            && (forall u :: u in w.tasks && u in w'.tasks ==>
                              w'.tasks[u] == w.tasks[u] || (u == w.schedules[s].task
                                                            && w'.tasks[u].status == TaskCanceled))
  {
    hide Normalized;
  }

  lemma OverIsNotActive(w: Tables, t: Id)
    requires IsOver(w, t)
    ensures t in w.tasks && LifeStatus(w.tasks[t]) != Active
  {
    hide IsOneShotTask;
  }

  lemma ArchiveAndRestoreGoOn(w: Tables, t: Id, actor: string, reason: Option<string>, now: Time)
    requires BooksOk(w)
    ensures GoesOn(w, ArchiveTask(w, t, actor, reason, now).work)
    ensures GoesOn(w, RestoreTask(w, t, actor, now).work)
  {
    hide *;
    BooksHaveGroups(w);
    ArchiveAndRestoreAreProgress(w, t, actor, reason, now);
    LivesOfTasks(w);
    ArchivedGoesOn(w, t, actor, reason, now);
    RestoredGoesOn(w, t, actor, now);
    OneTaskGoesOnIsGoingOn(w, ArchiveTask(w, t, actor, reason, now).work, t);
    OneTaskGoesOnIsGoingOn(w, RestoreTask(w, t, actor, now).work, t);
  }

  lemma LivesOfTasks(w: Tables)
    requires LivesOk(w)
    ensures ArchivesOk(w) && OneShotsOk(w)
  {
  }

  lemma ArchivedGoesOn(w: Tables, t: Id, actor: string, reason: Option<string>, now: Time)
    requires Progress(w, ArchiveTask(w, t, actor, reason, now).work)
    ensures OneTaskGoesOn(w, ArchiveTask(w, t, actor, reason, now).work, t)
  {
    hide Progress, IsOneShotTask, ArchivedTask, StatusBeforeArchive;
    if t in w.tasks && w.tasks[t].status != Archived && Normalized(Some(actor)).Some? {
      ArchiveRemembers(w.tasks[t], Normalized(Some(actor)).value, Normalized(reason), now);
      ArchivedHasStatus(w.tasks[t], Normalized(Some(actor)).value, Normalized(reason), now);
    }
  }

  lemma RestoredGoesOn(w: Tables, t: Id, actor: string, now: Time)
    requires Progress(w, RestoreTask(w, t, actor, now).work) && ArchivesOk(w)
    ensures OneTaskGoesOn(w, RestoreTask(w, t, actor, now).work, t)
  {
    hide Progress, IsOneShotTask;
  }

  lemma RecordEventGoesOn(w: Tables, r: Id, actor: string, eventType: string, summary: string, now: Time)
    requires BooksOk(w)
    ensures GoesOn(w, RecordEvent(w, r, actor, eventType, summary, now).work)
  {
    hide *;
    BooksHaveGroups(w);
    RecordEventIsProgress(w, r, actor, eventType, summary, now);
    RecordedGoesOn(w, r, actor, eventType, summary, now);
    OneTaskGoesOnIsGoingOn(w, RecordEvent(w, r, actor, eventType, summary, now).work, 0);
  }

  lemma RecordedGoesOn(w: Tables, r: Id, actor: string, eventType: string, summary: string, now: Time)
    requires Progress(w, RecordEvent(w, r, actor, eventType, summary, now).work)
    ensures OneTaskGoesOn(w, RecordEvent(w, r, actor, eventType, summary, now).work, 0)
  {
    hide Progress, IsOneShotTask;
  }

  lemma CancelTaskGoesOn(w: Tables, t: Id, actor: string, reason: Option<string>, now: Time)
    requires BooksOk(w)
    ensures GoesOn(w, CancelTask(w, t, actor, reason, now).work)
  {
    hide *;
    BooksHaveGroups(w);
    GoesOnReflexive(w);
    if CancelTask(w, t, actor, reason, now).result.Ok? {
      CancelTaskIsProgress(w, t, actor, reason, now);
      CancelTaskEffect(w, t, actor, reason, now);
      CanceledTaskGoesOn(w, CancelTask(w, t, actor, reason, now).work, t, Normalized(reason).value, now);
      OneTaskGoesOnIsGoingOn(w, CancelTask(w, t, actor, reason, now).work, t);
    } else {
      FailedCancelChangesNothing(w, t, actor, reason, now);
    }
  }

  lemma CanceledTaskGoesOn(w: Tables, w': Tables, t: Id, reason: string, now: Time)
    requires t in w.tasks && Progress(w, w') && w'.tasks == w.tasks[t := CanceledTask(w.tasks[t], Some(reason), now)]
    requires w'.schedules == CancelSchedules(w.schedules, t, reason, now) && w'.runs.Keys == w.runs.Keys
    requires forall r :: r in w.runs ==>
                           w'.runs[r] == if w.runs[r].task == t && !IsTerminal(w.runs[r].status)
                                         then CanceledRun(w.runs[r], reason, now) else w.runs[r]
    ensures OneTaskGoesOn(w, w', t)
  {
    hide Progress, IsOneShotTask;
  }

  // ---------------------------------------------------------------- moveWorkRun

  lemma MoveRunGoesOn(w: Tables, input: MoveInput, now: Time)
    requires BooksOk(w) && NonBlank(input.actor)
    ensures GoesOn(w, MoveRun(w, input, now).work)
  {
    hide *;
    BooksHaveGroups(w);
    GoesOnReflexive(w);
    if MoveRun(w, input, now).result.Ok? {
      LivesOfTasks(w);
      MoveRunIsProgress(w, input, now);
      MoveRunEffect(w, input, now);
      OpenRunMeansActive(w, input.run, input.status);
      MoveRunSchedules(w, input, now);
      MovedRunGoesOn(w, MoveRun(w, input, now).work, input);
      OneTaskGoesOnIsGoingOn(w, MoveRun(w, input, now).work, w.runs[input.run].task);
    } else {
      FailedMoveChangesNothing(w, input, now);
    }
  }

  /** A run that can still move belongs to no one-shot task that is over. */
  lemma OpenRunMeansActive(w: Tables, r: Id, to: RunStatus)
    requires LivesOk(w) && r in w.runs && to in AllowedRunMoves(w.runs[r].status) && w.runs[r].task in w.tasks
    ensures !IsOver(w, w.runs[r].task) && !IsTerminal(w.runs[r].status)
  {
    var t := w.runs[r].task;
    assert IsOneShotTask(w, t) ==> OneShotOk(w, t);
  }

  lemma MoveRunSchedules(w: Tables, input: MoveInput, now: Time)
    ensures forall s :: s in w.schedules ==>
                          && s in MoveRun(w, input, now).work.schedules
                          && w.schedules[s].runCount <= MoveRun(w, input, now).work.schedules[s].runCount
                          && SamePlan(w.schedules[s], MoveRun(w, input, now).work.schedules[s])
                          && (!IsLive(w.schedules[s].status) ==>
                                !IsLive(MoveRun(w, input, now).work.schedules[s].status))
  {
    hide MoveError, MovedRun, ClosesWork, ScheduleOf, RunIdsOf, SettledTask;
  }

  lemma MovedRunGoesOn(w: Tables, w': Tables, input: MoveInput)
    requires Progress(w, w') && input.run in w.runs && input.run in w'.runs
             && w'.runs == w.runs[input.run := w'.runs[input.run]]
    requires var t := w.runs[input.run].task;
             t in w.tasks && t in w'.tasks && w'.tasks == w.tasks[t := w'.tasks[t]] && !IsOver(w, t)
    requires !IsTerminal(w.runs[input.run].status)
    requires forall s :: s in w.schedules ==>
                           && s in w'.schedules && w.schedules[s].runCount <= w'.schedules[s].runCount
                           && SamePlan(w.schedules[s], w'.schedules[s])
                           && (!IsLive(w.schedules[s].status) ==> !IsLive(w'.schedules[s].status))
    ensures OneTaskGoesOn(w, w', w.runs[input.run].task)
  {
    hide Progress, IsOver;
  }

  // ---------------------------------------------------------------- operations that add records

  /** One more run, for a task that is not over. */
  lemma NewRunGoesOn(w: Tables, w': Tables, r: Id)
    requires w.next <= w'.next && w'.revisions == w.revisions
    requires r !in w.runs && r in w'.runs && w'.runs == w.runs[r := w'.runs[r]]
    requires TasksGoOn(w.tasks, w'.tasks) && (forall t :: t in w.tasks ==> SameStanding(w.tasks[t], w'.tasks[t]))
    requires SchedulesGoOn(w.schedules, w'.schedules) && w'.schedules.Keys == w.schedules.Keys
    requires !IsOver(w, w'.runs[r].task)
    ensures GoesOn(w, w')
  {
    forall t | IsOver(w, t) ensures StaysOver(w, w', t) {
      KindsStay(w, w', t);
    }
  }

  lemma KindsStay(w: Tables, w': Tables, t: Id)
    requires SchedulesGoOn(w.schedules, w'.schedules) && w'.schedules.Keys == w.schedules.Keys
    ensures IsOneShotTask(w', t) <==> IsOneShotTask(w, t)
  {
    if IsOneShotTask(w', t) {
      forall s | s in w.schedules && w.schedules[s].task == t ensures w.schedules[s].kind == ScheduledOnce {
        assert w'.schedules[s].kind == ScheduledOnce;
      }
    }
  }

  lemma CreateDueRunGoesOn(w: Tables, s: Id, actor: string, directory: set<string>, now: Time)
    requires BooksOk(w) && NonBlank(actor)
    ensures GoesOn(w, CreateDueRun(w, s, actor, directory, now).work)
  {
    hide *;
    BooksHaveGroups(w);
    GoesOnReflexive(w);
    if CreateDueRun(w, s, actor, directory, now).result.Ok? {
      CreateDueRunEffect(w, s, actor, directory, now);
      FiringFindsNoRuns(w, s);
      RunsAreOld(w);
      FiredGoesOn(w, CreateDueRun(w, s, actor, directory, now).work, s, now);
    } else {
      FailedFiringChangesNothing(w, s, actor, directory, now);
    }
  }

  lemma FailedFiringChangesNothing(w: Tables, s: Id, actor: string, directory: set<string>, now: Time)
    requires NonBlank(actor) && CreateDueRun(w, s, actor, directory, now).result.Err?
    ensures CreateDueRun(w, s, actor, directory, now).work == w
  {
    hide ScheduleOf, RunIdsOf, FirstFilling, AdvanceSchedule, NonBlank;
  }

  lemma FiredGoesOn(w: Tables, w': Tables, s: Id, now: Time)
    requires s in w.schedules && w.schedules[s].nextRunAt.Some? && w.schedules[s].task in w.tasks
    requires w.tasks[w.schedules[s].task].status == Active && w.schedules[s].status == Enabled
    requires (forall r :: r in w.runs ==> r < w.next) && w'.tasks == w.tasks && w.next < w'.next
             && w'.revisions == w.revisions
    requires w.next in w'.runs && w'.runs == w.runs[w.next := w'.runs[w.next]]
             && w'.runs[w.next].task == w.schedules[s].task
    requires w'.schedules == w.schedules[s := AdvanceSchedule(CountRun(w.schedules[s], now),
                                                              w.schedules[s].nextRunAt.value, now)]
    ensures GoesOn(w, w')
  {
    hide IsOneShotTask;
    NewRunGoesOn(w, w', w.next);
  }

  lemma RetryRunGoesOn(w: Tables, r: Id, actor: string, assignee: Option<string>, directory: set<string>, now: Time)
    requires BooksOk(w)
    ensures GoesOn(w, RetryRun(w, r, actor, assignee, directory, now).work)
  {
    hide *;
    BooksHaveGroups(w);
    GoesOnReflexive(w);
    if RetryRun(w, r, actor, assignee, directory, now).result.Ok? {
      RetryEffect(w, r, actor, assignee, directory, now);
      RetryFindsOnlyFailures(w, r, actor, assignee, directory, now);
      CountRunTouchesOne(w, w.runs[r].task, now);
      RunsAreOld(w);
      RetriedGoesOn(w, RetryRun(w, r, actor, assignee, directory, now).work, w.runs[r].task, now);
    } else {
      FailedRetryChangesNothing(w, r, actor, assignee, directory, now);
    }
  }

  lemma RetriedGoesOn(w: Tables, w': Tables, t: Id, now: Time)
    requires t in w.tasks && w.tasks[t].status == Active && (forall r :: r in w.runs ==> r < w.next) && w.next < w'.next
    requires w'.revisions == w.revisions
    requires w.next in w'.runs && w'.runs == w.runs[w.next := w'.runs[w.next]] && w'.runs[w.next].task == t
    requires w'.tasks == w.tasks[t := w.tasks[t].(updatedAt := now)]
    requires w'.schedules.Keys == w.schedules.Keys
    requires forall s :: s in w.schedules ==>
                           w'.schedules[s] == if w.schedules[s].task == t then CountRun(w.schedules[s], now)
                                              else w.schedules[s]
    ensures GoesOn(w, w')
  {
    hide IsOneShotTask;
    NewRunGoesOn(w, w', w.next);
  }

  lemma CreateWorkGoesOn(w: Tables, input: CreateInput, directory: set<string>, now: Time)
    requires BooksOk(w)
    ensures GoesOn(w, CreateWork(w, input, directory, now).work)
  {
    hide *;
    BooksHaveGroups(w);
    GoesOnReflexive(w);
    if CreateWork(w, input, directory, now).result.Ok? {
      CreateWorkEffect(w, input, directory, now);
      IdsAreOld(w);
      NothingPointsAhead(w);
      CreateWorkHandsOut(w, input, directory, now);
      NewTaskGoesOn(w, CreateWork(w, input, directory, now).work);
    } else {
      FailedCreationChangesNothing(w, input, directory, now);
    }
  }

  lemma FailedCreationChangesNothing(w: Tables, input: CreateInput, directory: set<string>, now: Time)
    requires CreateWork(w, input, directory, now).result.Err?
    ensures CreateWork(w, input, directory, now).work == w
  {
    hide TriggerError, NewTask, ScheduleOf;
  }

  lemma CreateWorkHandsOut(w: Tables, input: CreateInput, directory: set<string>, now: Time)
    requires InitialRevision(w.next) !in w.revisions
    ensures w.next <= CreateWork(w, input, directory, now).work.next
    ensures RevisionsStay(w.revisions, CreateWork(w, input, directory, now).work.revisions)
  {
    hide TriggerError, NewTask, ScheduleOf, RevisionsStay;
    CreateWorkRevisions(w, input, directory, now);
    if CreateWork(w, input, directory, now).result.Ok? {
      RevisionAdded(w.revisions, InitialRevision(w.next), FirstRevision(w.next, NewTask(input, now).value));
    } else {
      assert RevisionsStay(w.revisions, w.revisions) by { NoRevisionAdded(w.revisions); }
    }
  }

  lemma CreateWorkRevisions(w: Tables, input: CreateInput, directory: set<string>, now: Time)
    ensures var after := CreateWork(w, input, directory, now);
            after.work.revisions == if after.result.Ok? then
              w.revisions[InitialRevision(w.next) := FirstRevision(w.next, NewTask(input, now).value)]
                                    else w.revisions
  {
    hide TriggerError, ScheduleOf;
  }

  lemma RevisionAdded(revisions: map<RevisionKey, Revision>, key: RevisionKey, revision: Revision)
    requires key !in revisions
    ensures RevisionsStay(revisions, revisions[key := revision])
  {
  }

  lemma NoRevisionAdded(revisions: map<RevisionKey, Revision>)
    ensures RevisionsStay(revisions, revisions)
  {
  }

  lemma IdsAreOld(w: Tables)
    requires RefsOk(w)
    ensures (forall r :: r in w.runs ==> r < w.next)
            && (forall s :: s in w.schedules ==> s < w.next && w.schedules[s].task < w.next)
    ensures forall t :: t in w.tasks ==> t < w.next
  {
  }

  lemma NewTaskGoesOn(w: Tables, w': Tables)
    requires forall r :: r in w.runs ==> r < w.next
    requires forall s :: s in w.schedules ==> s < w.next && w.schedules[s].task < w.next
    requires (forall t :: t in w.tasks ==> t < w.next && t in w'.tasks && w'.tasks[t] == w.tasks[t])
             && w.next <= w'.next
    requires RevisionsStay(w.revisions, w'.revisions)
    requires var t := w.next;
             || (w'.runs == w.runs && t + 1 in w'.schedules && w'.schedules[t + 1].task == t
                 && w'.schedules == w.schedules[t + 1 := w'.schedules[t + 1]])
             || (w'.schedules == w.schedules && t + 1 in w'.runs && w'.runs == w.runs[t + 1 := w'.runs[t + 1]]
                 && w'.runs[t + 1].task == t)
    ensures GoesOn(w, w')
  {
    forall t | IsOver(w, t) ensures StaysOver(w, w', t) {
      assert t != w.next;
    }
  }

  lemma ReviseTaskGoesOn(w: Tables, input: ReviseInput, now: Time)
    requires BooksOk(w)
    ensures GoesOn(w, ReviseTask(w, input, now).work)
  {
    hide *;
    GoesOnReflexive(w);
    if ReviseTask(w, input, now).result.Ok? {
      ReviseTaskEffect(w, input, now);
      HistoryBoundsRuns(w);
      if input.sourceRun.Some? { AdvancedRunGoesOn(w.runs[input.sourceRun.value], w.tasks[input.task].revision + 1,
                                                   now); }
      RevisedGoesOn(w, ReviseTask(w, input, now).work, input);
    } else {
      FailedRevisionChangesNothing(w, input, now);
    }
  }

  lemma AdvancedRunGoesOn(run: Run, revision: nat, now: Time)
    requires run.taskRevision <= revision && !IsTerminal(run.status)
    ensures RunGoesOn(run, run.(taskRevision := revision, updatedAt := now))
  {
  }

  lemma FailedRevisionChangesNothing(w: Tables, input: ReviseInput, now: Time)
    requires ReviseTask(w, input, now).result.Err?
    ensures ReviseTask(w, input, now).work == w
  {
  }

  lemma HistoryBoundsRuns(w: Tables)
    requires BooksOk(w)
    ensures forall r :: r in w.runs ==>
              w.runs[r].task in w.tasks && w.runs[r].taskRevision <= w.tasks[w.runs[r].task].revision
    ensures LaterRevision(w.next) !in w.revisions
  {
    hide HistoryOk, TextsOk, CountsOk, IdleOk, SlotsOk, ArchivesOk, OneShotsOk, LogsOk;
  }

  lemma ReviseTaskEffect(w: Tables, input: ReviseInput, now: Time)
    requires ReviseTask(w, input, now).result.Ok?
    ensures var w' := ReviseTask(w, input, now).work;
            var t := input.task;
            && t in w.tasks && t in w'.tasks && w.tasks[t].status == Active && w'.tasks == w.tasks[t := w'.tasks[t]]
            && SameStanding(w.tasks[t], w'.tasks[t]) && w'.tasks[t].owner == w.tasks[t].owner
            && w'.tasks[t].revision == w.tasks[t].revision + 1 && LaterRevision(w.next) in w'.revisions
            && w'.schedules == w.schedules && w.next < w'.next
            && w'.revisions == w.revisions[LaterRevision(w.next) := w'.revisions[LaterRevision(w.next)]]
            && (if input.sourceRun.None? then w'.runs == w.runs
                else
                  var r := input.sourceRun.value;
                  && r in w.runs && w.runs[r].task == t && !IsTerminal(w.runs[r].status)
                  && w'.runs == w.runs[r := w.runs[r].(taskRevision := w.tasks[t].revision + 1, updatedAt := now)])
  {
  }

  lemma RevisedGoesOn(w: Tables, w': Tables, input: ReviseInput)
    requires var t := input.task;
             && t in w.tasks && t in w'.tasks && w'.tasks == w.tasks[t := w'.tasks[t]]
             && SameStanding(w.tasks[t], w'.tasks[t])
             && w'.tasks[t].owner == w.tasks[t].owner && w.tasks[t].revision <= w'.tasks[t].revision
    requires w'.schedules == w.schedules && w.next <= w'.next && LaterRevision(w.next) in w'.revisions
    requires w'.revisions == w.revisions[LaterRevision(w.next) := w'.revisions[LaterRevision(w.next)]]
             && LaterRevision(w.next) !in w.revisions
    requires w'.runs == w.runs || (input.sourceRun.Some? && input.sourceRun.value in w.runs
                                   && input.sourceRun.value in w'.runs
                                   && w'.runs == w.runs[input.sourceRun.value := w'.runs[input.sourceRun.value]]
                                   && RunGoesOn(w.runs[input.sourceRun.value], w'.runs[input.sourceRun.value]))
    ensures GoesOn(w, w')
  {
  }
}
