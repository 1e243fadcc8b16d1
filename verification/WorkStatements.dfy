/** The SQL statements of the write-behind repository, as what each does to the tables: the columns it
    writes, its conflict clause, and the constraints that reject it. */
module WorkStatements {
  import opened Prelude
  import opened WorkDomain
  import opened WorkOperations

  datatype Statement =
    | TaskInsert(id: Id, task: Task)
    | RevisionInsert(key: RevisionKey, revision: Revision)
    | ScheduleInsert(id: Id, schedule: Schedule)
    | TaskUpdate(id: Id, task: Task)
    | TaskRevise(id: Id, task: Task, source: Option<Id>, key: RevisionKey, changedBy: string, reason: string)
    | ScheduleUpdate(id: Id, schedule: Schedule)
    | RunInsert(id: Id, run: Run)
    | RunCountUpdate(ofTask: Id, now: Time)
    | RunUpdate(id: Id, run: Run)
    | EventInsert(id: Id, event: Event)

  // ---------------------------------------------------------------- constraints

  /** The check constraint on enabled schedules. */
  predicate ScheduleCheck(schedule: Schedule) {
    schedule.status == Enabled ==> schedule.nextRunAt.Some?
  }

  predicate HasNumber(revisions: map<RevisionKey, Revision>, t: Id, n: nat) {
    exists k :: k in revisions && revisions[k].task == t && revisions[k].number == n
  }

  /** Primary keys, foreign keys and checks; a rejected statement has no effect at all. */
  predicate Rejected(w: Tables, statement: Statement) {
    match statement
    case TaskInsert(_, task) => task.revision == 0
    case RevisionInsert(key, revision) =>
      revision.task !in w.tasks || revision.number == 0
      || (key in w.revisions && !HasNumber(w.revisions, revision.task, revision.number))
    case ScheduleInsert(_, schedule) => schedule.task !in w.tasks || !ScheduleCheck(schedule)
    case TaskUpdate(id, task) => id in w.tasks && task.revision == 0
    case TaskRevise(id, task, run, key, _, _) =>
      (task.revision == 0 && (id in w.tasks || (run.Some? && run.value in w.runs)))
      || (id in w.tasks && (key in w.revisions || HasNumber(w.revisions, id, task.revision)))
    case ScheduleUpdate(id, schedule) => id in w.schedules && !ScheduleCheck(schedule)
    case RunInsert(_, run) => run.task !in w.tasks || run.taskRevision == 0
    case RunCountUpdate(_, _) => false
    case RunUpdate(_, _) => false
    case EventInsert(_, event) => event.run !in w.runs
  }

  // ---------------------------------------------------------------- effects

  /** The task row after an UPDATE, which never writes the columns of its origin. */
  function UpdatedTaskRow(row: Task, task: Task): Task {
    task.(origin := row.origin)
  }

  function RevisedTaskRow(row: Task, task: Task): Task {
    row.(title := task.title, description := task.description, acceptanceCriteria := task.acceptanceCriteria,
         revision := task.revision, updatedAt := task.updatedAt)
  }

  /** Neither the task nor the creation time of a schedule is ever updated. */
  function UpdatedScheduleRow(row: Schedule, schedule: Schedule): Schedule {
    schedule.(task := row.task, createdAt := row.createdAt)
  }

  /** An UPDATE of a run writes only how far it has come. */
  function UpdatedRunRow(row: Run, run: Run): Run {
    row.(status := run.status, assignee := run.assignee, startedAt := run.startedAt, completedAt := run.completedAt,
         blockedReason := run.blockedReason, failedReason := run.failedReason, canceledReason := run.canceledReason,
         resultSummary := run.resultSummary, updatedAt := run.updatedAt)
  }

  function RevisionRow(statement: Statement): Revision
    requires statement.TaskRevise?
  {
    var task := statement.task;
    Revision(statement.id, task.revision, task.title, task.description, task.acceptanceCriteria, statement.changedBy,
             statement.reason, statement.source, task.updatedAt)
  }

  function RevisedTables(w: Tables, statement: Statement): Tables
    requires statement.TaskRevise?
  {
    var id, task, run := statement.id, statement.task, statement.source;
    var w1 := if run.Some? && run.value in w.runs
              then w.(runs := w.runs[run.value := w.runs[run.value].(taskRevision := task.revision,
                                                                     updatedAt := task.updatedAt)])
              else w;
    if id !in w.tasks then w1
    else
      w1.(tasks := w.tasks[id := RevisedTaskRow(w.tasks[id], task)],
          revisions := w.revisions[statement.key := RevisionRow(statement)])
  }

  function CountedSchedules(schedules: map<Id, Schedule>, t: Id, now: Time): map<Id, Schedule> {
    map s | s in schedules :: if schedules[s].task == t then CountRun(schedules[s], now) else schedules[s]
  }

  function Apply(w: Tables, statement: Statement): Tables {
    match statement
    case TaskInsert(id, task) =>
      w.(tasks := w.tasks[id :=
        if id in w.tasks then task.(origin := task.origin.(createdAt := w.tasks[id].origin.createdAt)) else task])
    case RevisionInsert(key, revision) =>
      if HasNumber(w.revisions, revision.task, revision.number) then w
      else w.(revisions := w.revisions[key := revision])
    case ScheduleInsert(id, schedule) =>
      w.(schedules := w.schedules[id := if id in w.schedules then schedule.(createdAt := w.schedules[id].createdAt)
                                  else schedule])
    case TaskUpdate(id, task) =>
      if id in w.tasks then w.(tasks := w.tasks[id := UpdatedTaskRow(w.tasks[id], task)]) else w
    case TaskRevise(_, _, _, _, _, _) => RevisedTables(w, statement)
    case ScheduleUpdate(id, schedule) =>
      if id in w.schedules then w.(schedules := w.schedules[id := UpdatedScheduleRow(w.schedules[id], schedule)]) else w
    case RunInsert(id, run) =>
      w.(runs := w.runs[id := if id in w.runs then run.(createdAt := w.runs[id].createdAt) else run])
    case RunCountUpdate(t, now) => w.(schedules := CountedSchedules(w.schedules, t, now))
    case RunUpdate(id, run) => if id in w.runs then w.(runs := w.runs[id := UpdatedRunRow(w.runs[id], run)]) else w
    case EventInsert(id, event) => w.(events := w.events[id := event])
  }

  /** Statements run in the order they were queued; after a rejected one none of the rest is run. */
  datatype Execution = Execution(work: Tables, ok: bool)

  function Execute(so: Execution, statement: Statement): Execution {
    if !so.ok then so
    else if Rejected(so.work, statement) then so.(ok := false)
    else so.(work := Apply(so.work, statement))
  }

  function ExecuteAll(w: Tables, statements: seq<Statement>): Execution {
    if statements == [] then Execution(w, true)
    else Execute(ExecuteAll(w, statements[..|statements| - 1]), statements[|statements| - 1])
  }

  lemma ExecuteOneMore(w: Tables, statements: seq<Statement>, last: Statement)
    ensures ExecuteAll(w, statements + [last]) == Execute(ExecuteAll(w, statements), last)
  {
    assert (statements + [last])[..|statements|] == statements;
  }

  // ---------------------------------------------------------------- when a statement does what memory did

  /** What the callers of each mutator owe, so that its statement does to the tables exactly what the
      mutator did to the arrays. */
  predicate MayInsertTask(w: Tables, id: Id, task: Task) {
    task.revision > 0 && (id in w.tasks ==> w.tasks[id].origin.createdAt == task.origin.createdAt)
  }

  predicate MayInsertRevision(w: Tables, key: RevisionKey, revision: Revision) {
    && revision.task in w.tasks && revision.number > 0
    && (if HasNumber(w.revisions, revision.task, revision.number) then key in w.revisions
        && w.revisions[key] == revision
        else key !in w.revisions)
  }

  predicate MayInsertSchedule(w: Tables, id: Id, schedule: Schedule) {
    && schedule.task in w.tasks && ScheduleCheck(schedule)
    && (id in w.schedules ==> w.schedules[id].createdAt == schedule.createdAt)
  }

  predicate MayUpdateTask(w: Tables, id: Id, task: Task) {
    id in w.tasks && task.revision > 0 && w.tasks[id].origin == task.origin
  }

  predicate MayUpdateSchedule(w: Tables, id: Id, schedule: Schedule) {
    && id in w.schedules && ScheduleCheck(schedule)
    && w.schedules[id].task == schedule.task && w.schedules[id].createdAt == schedule.createdAt
  }

  predicate MayInsertRun(w: Tables, id: Id, run: Run) {
    && run.task in w.tasks && run.taskRevision > 0
    && (id in w.runs ==> w.runs[id].createdAt == run.createdAt)
  }

  /** taskRevision, in particular, never changes through updateWorkRun. */
  predicate MayUpdateRun(w: Tables, id: Id, run: Run) {
    && id in w.runs
    && w.runs[id].task == run.task && w.runs[id].taskRevision == run.taskRevision
    && w.runs[id].triggeredBy == run.triggeredBy
    && w.runs[id].scheduledFor == run.scheduledFor && w.runs[id].createdAt == run.createdAt
  }

  predicate MayRevise(w: Tables, id: Id, task: Task, run: Option<Run>, source: Option<Id>, key: RevisionKey,
                      revision: Revision) {
    && id in w.tasks && task.revision > 0 && task == RevisedTaskRow(w.tasks[id], task)
    && key !in w.revisions && !HasNumber(w.revisions, id, task.revision)
    && revision == RevisionRow(TaskRevise(id, task, source, key, revision.changedBy, revision.reason))
    && (source.Some? <==> run.Some?)
    && (source.Some? ==> source.value in w.runs
                         && run.value == w.runs[source.value].(taskRevision := task.revision,
                                                               updatedAt := task.updatedAt))
  }

  /** One schedule per task, or the relative update moves rows that memory did not. */
  predicate MayCountRun(w: Tables, t: Id, counted: Option<Id>) {
    forall s :: s in w.schedules && w.schedules[s].task == t ==> counted == Some(s)
  }

  /** The statement is accepted and leaves exactly w'. */
  predicate Mirrors(w: Tables, statement: Statement, w': Tables) {
    !Rejected(w, statement) && Apply(w, statement) == w'
  }

  lemma MapUpdatesEqual<K, V>(m: map<K, V>, k: K, a: V, b: V)
    ensures m[k := a] == m[k := b] <==> a == b
  {
    if m[k := a] == m[k := b] { assert m[k := a][k] == m[k := b][k]; }
  }

  lemma InsertTaskMirrors(w: Tables, id: Id, task: Task)
    ensures Mirrors(w, TaskInsert(id, task), w.(tasks := w.tasks[id := task])) <==> MayInsertTask(w, id, task)
  {
    if id in w.tasks { MapUpdatesEqual(w.tasks, id,
                                       task.(origin := task.origin.(createdAt := w.tasks[id].origin.createdAt)),
                                         task); }
  }

  lemma InsertRevisionMirrors(w: Tables, key: RevisionKey, revision: Revision)
    ensures Mirrors(w, RevisionInsert(key, revision), w.(revisions := w.revisions[key := revision]))
            <==> MayInsertRevision(w, key, revision)
  {
    var written := w.revisions[key := revision];
    if HasNumber(w.revisions, revision.task, revision.number) {
      if w.revisions == written { assert key in written && written[key] == revision; }
    }
  }

  lemma InsertScheduleMirrors(w: Tables, id: Id, schedule: Schedule)
    ensures Mirrors(w, ScheduleInsert(id, schedule), w.(schedules := w.schedules[id := schedule])) <==>
              MayInsertSchedule(w, id, schedule)
  {
    if id in w.schedules { MapUpdatesEqual(w.schedules, id, schedule.(createdAt := w.schedules[id].createdAt),
                                           schedule); }
  }

  lemma UpdateTaskMirrors(w: Tables, id: Id, task: Task)
    ensures Mirrors(w, TaskUpdate(id, task), w.(tasks := w.tasks[id := task])) <==> MayUpdateTask(w, id, task)
  {
    if id in w.tasks {
      MapUpdatesEqual(w.tasks, id, UpdatedTaskRow(w.tasks[id], task), task);
    } else {
      assert id in w.tasks[id := task];
    }
  }

  lemma UpdateScheduleMirrors(w: Tables, id: Id, schedule: Schedule)
    ensures Mirrors(w, ScheduleUpdate(id, schedule), w.(schedules := w.schedules[id := schedule])) <==>
              MayUpdateSchedule(w, id, schedule)
  {
    if id in w.schedules {
      MapUpdatesEqual(w.schedules, id, UpdatedScheduleRow(w.schedules[id], schedule), schedule);
    } else {
      assert id in w.schedules[id := schedule];
    }
  }

  lemma InsertRunMirrors(w: Tables, id: Id, run: Run)
    ensures Mirrors(w, RunInsert(id, run), w.(runs := w.runs[id := run])) <==> MayInsertRun(w, id, run)
  {
    if id in w.runs { MapUpdatesEqual(w.runs, id, run.(createdAt := w.runs[id].createdAt), run); }
  }

  lemma UpdateRunMirrors(w: Tables, id: Id, run: Run)
    ensures Mirrors(w, RunUpdate(id, run), w.(runs := w.runs[id := run])) <==> MayUpdateRun(w, id, run)
  {
    if id in w.runs {
      MapUpdatesEqual(w.runs, id, UpdatedRunRow(w.runs[id], run), run);
    } else {
      assert id in w.runs[id := run];
    }
  }

  lemma InsertEventMirrors(w: Tables, id: Id, event: Event)
    ensures Mirrors(w, EventInsert(id, event), w.(events := w.events[id := event])) <==> event.run in w.runs
  {
  }

  /** What memory does for a relative count: it moves the one schedule it finds first, if any. */
  function CountedOne(w: Tables, counted: Option<Id>, now: Time): Tables
    requires counted.Some? ==> counted.value in w.schedules
  {
    if counted.None? then w else w.(schedules := w.schedules[counted.value := CountRun(w.schedules[counted.value],
                                                                                       now)])
  }

  lemma CountRunMirrors(w: Tables, t: Id, counted: Option<Id>, now: Time)
    requires counted.Some? ==> counted.value in w.schedules && w.schedules[counted.value].task == t
    ensures Mirrors(w, RunCountUpdate(t, now), CountedOne(w, counted, now)) <==> MayCountRun(w, t, counted)
  {
    var all := CountedSchedules(w.schedules, t, now);
    var one := CountedOne(w, counted, now).schedules;
    if all == one {
      forall s | s in w.schedules && w.schedules[s].task == t ensures counted == Some(s) {
        assert s in all && all[s].runCount == w.schedules[s].runCount + 1;
      }
    }
  }

  /** What memory does for a revision: the three arrays, each with its own record. */
  function RevisedInMemory(w: Tables, id: Id, task: Task, key: RevisionKey, revision: Revision, source: Option<Id>,
                           run: Option<Run>): Tables {
    var w1 := w.(tasks := w.tasks[id := task], revisions := w.revisions[key := revision]);
    if source.Some? && run.Some? then w1.(runs := w.runs[source.value := run.value]) else w1
  }

  lemma ReviseMirrors(w: Tables, id: Id, task: Task, key: RevisionKey, revision: Revision, source: Option<Id>,
                      run: Option<Run>)
    requires source.Some? <==> run.Some?
    ensures var statement := TaskRevise(id, task, source, key, revision.changedBy, revision.reason);
            Mirrors(w, statement, RevisedInMemory(w, id, task, key, revision, source, run)) <==>
              MayRevise(w, id, task, run, source, key, revision)
  {
    var statement := TaskRevise(id, task, source, key, revision.changedBy, revision.reason);
    var w' := RevisedInMemory(w, id, task, key, revision, source, run);
    if Mirrors(w, statement, w') {
      assert id in w'.tasks && w'.tasks[id] == task;
      assert key in w'.revisions && w'.revisions[key] == revision;
      if run.Some? { assert source.value in w'.runs && w'.runs[source.value] == run.value; }
    }
  }

  // ---------------------------------------------------------------- each obligation is needed

  /** Two schedules of one task: the UPDATE moves both counters, memory only one. */
  lemma TwoSchedulesDiverge(w: Tables, s: Id, q: Id, now: Time)
    requires s in w.schedules && q in w.schedules && s != q && w.schedules[s].task == w.schedules[q].task
    ensures !Mirrors(w, RunCountUpdate(w.schedules[s].task, now), CountedOne(w, Some(s), now))
  {
    CountRunMirrors(w, w.schedules[s].task, Some(s), now);
  }

  /** Moving a run to another revision through updateWorkRun would stay in memory. */
  lemma RevisionByUpdateDiverges(w: Tables, id: Id, revision: nat)
    requires id in w.runs && revision != w.runs[id].taskRevision
    ensures var run := w.runs[id].(taskRevision := revision);
            !Mirrors(w, RunUpdate(id, run), w.(runs := w.runs[id := run]))
  {
    UpdateRunMirrors(w, id, w.runs[id].(taskRevision := revision));
  }
}
