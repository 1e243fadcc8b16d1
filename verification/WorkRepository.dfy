/** The write-behind repository: arrays of rows that every mutator edits at once, and the queue of
    statements that will edit the tables the same way. */
module WorkRepository {
  import opened Prelude
  import opened WorkDomain
  import opened WorkOperations
  import opened Listings
  import opened WorkStatements

  // ---------------------------------------------------------------- arrays of rows

  datatype Entry<K, V> = Entry(id: K, row: V)

  /** What an array means to `find`, which takes the first row with an id. */
  function ToMap<K, V>(rows: seq<Entry<K, V>>): map<K, V> {
    if rows == [] then map[] else ToMap(rows[1..])[rows[0].id := rows[0].row]
  }

  ghost predicate UniqueIds<K, V>(rows: seq<Entry<K, V>>) {
    forall i, j :: 0 <= i < j < |rows| ==> rows[i].id != rows[j].id
  }

  lemma {:induction false} ToMapKeys<K, V>(rows: seq<Entry<K, V>>, id: K)
    ensures id in ToMap(rows) <==> exists i :: 0 <= i < |rows| && rows[i].id == id
  {
    if rows != [] {
      ToMapKeys(rows[1..], id);
      assert forall i :: 0 <= i < |rows[1..]| ==> rows[1..][i] == rows[i + 1];
      if id in ToMap(rows) && id != rows[0].id {
        var i :| 0 <= i < |rows[1..]| && rows[1..][i].id == id;
        assert rows[i + 1].id == id;
      }
    }
  }

  lemma {:induction false} ToMapFirst<K, V>(rows: seq<Entry<K, V>>, i: nat)
    requires i < |rows| && forall j :: 0 <= j < i ==> rows[j].id != rows[i].id
    ensures rows[i].id in ToMap(rows) && ToMap(rows)[rows[i].id] == rows[i].row
  {
    if i > 0 { ToMapFirst(rows[1..], i - 1); }
  }

  lemma {:induction false} ToMapReplace<K, V>(rows: seq<Entry<K, V>>, i: nat, row: V)
    requires i < |rows| && forall j :: 0 <= j < i ==> rows[j].id != rows[i].id
    ensures ToMap(rows[i := Entry(rows[i].id, row)]) == ToMap(rows)[rows[i].id := row]
  {
    var rows' := rows[i := Entry(rows[i].id, row)];
    if i == 0 {
      assert rows'[1..] == rows[1..];
    } else {
      assert rows'[1..] == rows[1..][i - 1 := Entry(rows[i].id, row)];
      ToMapReplace(rows[1..], i - 1, row);
    }
  }

  lemma {:induction false} ToMapPush<K, V>(rows: seq<Entry<K, V>>, id: K, row: V)
    requires forall j :: 0 <= j < |rows| ==> rows[j].id != id
    ensures ToMap(rows + [Entry(id, row)]) == ToMap(rows)[id := row]
  {
    var rows' := rows + [Entry(id, row)];
    if rows == [] {
      assert rows'[1..] == [];
    } else {
      assert rows'[1..] == rows[1..] + [Entry(id, row)];
      ToMapPush(rows[1..], id, row);
    }
  }

  method FindIndex<K(==), V>(rows: seq<Entry<K, V>>, id: K) returns (index: int)
    ensures -1 <= index < |rows|
    ensures index >= 0 ==> rows[index].id == id && forall j :: 0 <= j < index ==> rows[j].id != id
    ensures index == -1 ==> forall j :: 0 <= j < |rows| ==> rows[j].id != id
  {
    index := 0;
    while index < |rows|
      invariant 0 <= index <= |rows|
      invariant forall j :: 0 <= j < index ==> rows[j].id != id
    {
      if rows[index].id == id {
        return index;
      }
      index := index + 1;
    }
    index := -1;
  }

  method Find<K(==), V>(rows: seq<Entry<K, V>>, id: K) returns (found: Option<V>)
    ensures found == if id in ToMap(rows) then Some(ToMap(rows)[id]) else None
  {
    var index := FindIndex(rows, id);
    ToMapKeys(rows, id);
    if index >= 0 {
      ToMapFirst(rows, index);
      found := Some(rows[index].row);
    } else {
      found := None;
    }
  }

  method UpsertById<K(==), V>(rows: seq<Entry<K, V>>, id: K, row: V) returns (rows': seq<Entry<K, V>>)
    ensures ToMap(rows') == ToMap(rows)[id := row]
    ensures UniqueIds(rows) ==> UniqueIds(rows')
  {
    var index := FindIndex(rows, id);
    if index >= 0 {
      ToMapReplace(rows, index, row);
      rows' := rows[index := Entry(id, row)];
    } else {
      ToMapPush(rows, id, row);
      rows' := rows + [Entry(id, row)];
    }
  }

  /** The rows of a table, in whatever order they come. */
  method Load<K(==), V>(table: map<K, V>) returns (rows: seq<Entry<K, V>>)
    ensures ToMap(rows) == table && UniqueIds(rows)
  {
    rows := [];
    var left := table.Keys;
    while left != {}
      invariant left <= table.Keys && UniqueIds(rows)
      invariant ToMap(rows) == map k | k in table && k !in left :: table[k]
      invariant forall i :: 0 <= i < |rows| ==> rows[i].id in table && rows[i].id !in left
      decreases |left|
    {
      var k :| k in left;
      ToMapPush(rows, k, table[k]);
      rows := rows + [Entry(k, table[k])];
      left := left - {k};
    }
  }

  // ---------------------------------------------------------------- sorted listings

  /** The ids with one more in its place. */
  method InsertAscending(ids: seq<Id>, id: Id) returns (ids': seq<Id>)
    requires Ascending(ids) && id !in ids
    ensures Ascending(ids') && forall k :: k in ids' <==> k in ids || k == id
  {
    var i := 0;
    while i < |ids| && ids[i] < id
      invariant 0 <= i <= |ids|
      invariant forall j :: 0 <= j < i ==> ids[j] < id
    {
      i := i + 1;
    }
    ids' := ids[..i] + [id] + ids[i..];
    InsertedAscends(ids, i, id);
  }

  lemma AscendingJoin(a: seq<Id>, b: seq<Id>)
    requires Ascending(a) && Ascending(b) && forall x, y :: x in a && y in b ==> x < y
    ensures Ascending(a + b)
  {
    var ab := a + b;
    forall i, j | 0 <= i < j < |ab| ensures ab[i] < ab[j] {
      if i < |a| <= j { assert ab[i] in a && ab[j] in b; }
    }
  }

  lemma InsertedAscends(ids: seq<Id>, i: nat, id: Id)
    requires Ascending(ids) && i <= |ids| && id !in ids
    requires (forall j :: 0 <= j < i ==> ids[j] < id) && (i < |ids| ==> id <= ids[i])
    ensures Ascending(ids[..i] + [id] + ids[i..])
    ensures forall k :: k in ids[..i] + [id] + ids[i..] <==> k in ids || k == id
  {
    var before, after := ids[..i], ids[i..];
    assert forall x :: x in before ==> x < id;
    assert forall x :: x in after ==> id < x;
    AscendingJoin(before, [id]);
    AscendingJoin(before + [id], after);
    assert ids == before + after;
  }

  lemma SomethingIsIn(ids: seq<Id>)
    ensures ids != [] <==> exists k :: k in ids
  {
    if ids != [] { assert ids[0] in ids; }
  }

  /** A set of ids has only one ascending listing. */
  lemma {:induction false} AscendingIsUnique(a: seq<Id>, b: seq<Id>)
    requires Ascending(a) && Ascending(b) && forall k :: k in a <==> k in b
    ensures a == b
    decreases |a|
  {
    SomethingIsIn(a);
    SomethingIsIn(b);
    if a != [] && b != [] {
      var m, n := |a| - 1, |b| - 1;
      assert a[m] == b[n] by {
        assert a[m] in b && b[n] in a;
        var i :| 0 <= i < |b| && b[i] == a[m];
        var j :| 0 <= j < |a| && a[j] == b[n];
      }
      forall k ensures k in a[..m] <==> k in b[..n] {
        assert a == a[..m] + [a[m]] && b == b[..n] + [b[n]];
        if k in a[..m] { assert k in a && k != a[m]; }
        if k in b[..n] { assert k in b && k != b[n]; }
      }
      AscendingIsUnique(a[..m], b[..n]);
      assert a == a[..m] + [a[m]] && b == b[..n] + [b[n]];
    }
  }

  // ---------------------------------------------------------------- the repository

  class Repository {
    var tasks: seq<Entry<Id, Task>>
    var revisions: seq<Entry<RevisionKey, Revision>>
    var schedules: seq<Entry<Id, Schedule>>
    var runs: seq<Entry<Id, Run>>
    var events: seq<Entry<Id, Event>>
    var pending: seq<Statement>
    var next: Id
    ghost var loaded: Tables

    /** The tables as the arrays show them. */
    ghost function View(): Tables
      reads this
    {
      Tables(next, ToMap(tasks), ToMap(revisions), ToMap(schedules), ToMap(runs), ToMap(events))
    }

    ghost predicate Valid()
      reads this
    {
      UniqueIds(schedules) && UniqueIds(runs)
    }

    /** Running the queued statements on the tables that were loaded gives what the arrays show. */
    ghost predicate Synced()
      reads this
    {
      ExecuteAll(loaded, pending) == Execution(View().(next := loaded.next), true)
    }

    constructor (w: Tables)
      ensures Valid() && Synced() && View() == w && loaded == w && pending == []
    {
      next := w.next;
      loaded := w;
      pending := [];
      new;
      tasks := Load(w.tasks);
      revisions := Load(w.revisions);
      schedules := Load(w.schedules);
      runs := Load(w.runs);
      events := Load(w.events);
    }

    method CreateId() returns (id: Id)
      requires Valid()
      modifies this`next
      ensures Valid() && id == old(View()).next && View() == old(View()).(next := id + 1)
      ensures old(Synced()) ==> Synced()
    {
      id := next;
      next := next + 1;
    }

    /** One statement more keeps the agreement exactly when it mirrors what memory did. */
    lemma OneMoreStatement(before: Tables, statements: seq<Statement>, statement: Statement, after: Tables)
      requires ExecuteAll(loaded, statements) == Execution(before, true)
      ensures ExecuteAll(loaded, statements + [statement]) == Execution(after, true) <==>
                Mirrors(before, statement, after)
    {
      ExecuteOneMore(loaded, statements, statement);
    }

    // -------------------------------------------------------------- mutators

    method UpdateWorkTask(id: Id, task: Task)
      requires Valid()
      modifies this`tasks, this`pending
      ensures Valid() && View() == old(View()).(tasks := old(View()).tasks[id := task])
      ensures old(Synced()) ==> (Synced() <==> MayUpdateTask(old(View()), id, task))
    {
      ghost var w := View().(next := loaded.next);
      UpdateTaskMirrors(w, id, task);
      tasks := UpsertById(tasks, id, task);
      if old(Synced()) { OneMoreStatement(w, pending, TaskUpdate(id, task), View().(next := loaded.next)); }
      pending := pending + [TaskUpdate(id, task)];
    }

    method UpdateWorkSchedule(id: Id, schedule: Schedule)
      requires Valid()
      modifies this`schedules, this`pending
      ensures Valid() && View() == old(View()).(schedules := old(View()).schedules[id := schedule])
      ensures old(Synced()) ==> (Synced() <==> MayUpdateSchedule(old(View()), id, schedule))
    {
      ghost var w := View().(next := loaded.next);
      UpdateScheduleMirrors(w, id, schedule);
      schedules := UpsertById(schedules, id, schedule);
      if old(Synced()) { OneMoreStatement(w, pending, ScheduleUpdate(id, schedule), View().(next := loaded.next)); }
      pending := pending + [ScheduleUpdate(id, schedule)];
    }

    method UpdateWorkRun(id: Id, run: Run)
      requires Valid()
      modifies this`runs, this`pending
      ensures Valid() && View() == old(View()).(runs := old(View()).runs[id := run])
      ensures old(Synced()) ==> (Synced() <==> MayUpdateRun(old(View()), id, run))
    {
      ghost var w := View().(next := loaded.next);
      UpdateRunMirrors(w, id, run);
      runs := UpsertById(runs, id, run);
      if old(Synced()) { OneMoreStatement(w, pending, RunUpdate(id, run), View().(next := loaded.next)); }
      pending := pending + [RunUpdate(id, run)];
    }

    method AppendWorkRunEvent(id: Id, event: Event)
      requires Valid()
      modifies this`events, this`pending
      ensures Valid() && View() == old(View()).(events := old(View()).events[id := event])
      ensures old(Synced()) ==> (Synced() <==> event.run in old(View()).runs)
    {
      ghost var w := View().(next := loaded.next);
      InsertEventMirrors(w, id, event);
      events := UpsertById(events, id, event);
      if old(Synced()) { OneMoreStatement(w, pending, EventInsert(id, event), View().(next := loaded.next)); }
      pending := pending + [EventInsert(id, event)];
    }

    method CreateWorkSchedule(id: Id, schedule: Schedule)
      requires Valid()
      modifies this`schedules, this`pending
      ensures Valid() && View() == old(View()).(schedules := old(View()).schedules[id := schedule])
      ensures old(Synced()) ==> (Synced() <==> MayInsertSchedule(old(View()), id, schedule))
    {
      ghost var w := View().(next := loaded.next);
      InsertScheduleMirrors(w, id, schedule);
      schedules := UpsertById(schedules, id, schedule);
      if old(Synced()) { OneMoreStatement(w, pending, ScheduleInsert(id, schedule), View().(next := loaded.next)); }
      pending := pending + [ScheduleInsert(id, schedule)];
    }

    /** The task and its initial revision, each with a statement of its own. */
    method CreateWorkTask(id: Id, task: Task)
      requires Valid() && task.revision > 0
      modifies this`tasks, this`revisions, this`pending
      ensures Valid()
      ensures View() == old(View()).(tasks := old(View()).tasks[id := task],
                                     revisions := old(View()).revisions[InitialRevision(id) := FirstRevision(id, task)])
      ensures old(Synced()) && MayInsertTask(old(View()), id, task) ==>
                (Synced() <==> MayInsertRevision(old(View()).(tasks := old(View()).tasks[id := task]),
                                                 InitialRevision(id), FirstRevision(id, task)))
    {
      hide ToMap, Mirrors, UniqueIds, ExecuteAll, HasNumber;
      ghost var w := View().(next := loaded.next);
      InsertTaskMirrors(w, id, task);
      tasks := UpsertById(tasks, id, task);
      ghost var w1 := View().(next := loaded.next);
      if old(Synced()) { OneMoreStatement(w, pending, TaskInsert(id, task), w1); }
      pending := pending + [TaskInsert(id, task)];
      var revision := FirstRevision(id, task);
      InsertRevisionMirrors(w1, InitialRevision(id), revision);
      revisions := UpsertById(revisions, InitialRevision(id), revision);
      if ExecuteAll(loaded, pending) == Execution(w1, true) {
        OneMoreStatement(w1, pending, RevisionInsert(InitialRevision(id), revision), View().(next := loaded.next));
      }
      pending := pending + [RevisionInsert(InitialRevision(id), revision)];
    }

    /** Moves the counter of the schedule that memory finds first, and of every schedule in the table. */
    method IncrementScheduleRunCount(t: Id, now: Time) returns (ghost counted: Option<Id>)
      requires Valid()
      modifies this`schedules, this`pending
      ensures Valid() && (counted.Some? ==>
                            counted.value in old(View()).schedules && old(View()).schedules[counted.value].task == t)
      ensures counted.None? ==> forall s :: s in old(View()).schedules ==> old(View()).schedules[s].task != t
      ensures View() == CountedOne(old(View()), counted, now)
      ensures old(Synced()) ==> (Synced() <==> MayCountRun(old(View()), t, counted))
    {
      ghost var w := View().(next := loaded.next);
      var index := 0;
      while index < |schedules| && schedules[index].row.task != t
        invariant 0 <= index <= |schedules|
        invariant forall j :: 0 <= j < index ==> schedules[j].row.task != t
      {
        index := index + 1;
      }
      counted := None;
      if index < |schedules| {
        var entry := schedules[index];
        counted := Some(entry.id);
        ToMapFirst(schedules, index);
        ToMapReplace(schedules, index, CountRun(entry.row, now));
        schedules := schedules[index := Entry(entry.id, CountRun(entry.row, now))];
      } else {
        forall s | s in ToMap(schedules) ensures ToMap(schedules)[s].task != t {
          ToMapKeys(schedules, s);
          var j :| 0 <= j < |schedules| && schedules[j].id == s;
          ToMapFirst(schedules, j);
        }
      }
      CountRunMirrors(w, t, counted, now);
      if old(Synced()) { OneMoreStatement(w, pending, RunCountUpdate(t, now), View().(next := loaded.next)); }
      pending := pending + [RunCountUpdate(t, now)];
    }

    method CreateWorkRun(id: Id, run: Run) returns (ghost counted: Option<Id>)
      requires Valid()
      modifies this`schedules, this`runs, this`pending
      ensures Valid() && (counted.Some? ==>
                            counted.value in old(View()).schedules
                            && old(View()).schedules[counted.value].task == run.task)
      ensures counted.None? ==> forall s :: s in old(View()).schedules ==> old(View()).schedules[s].task != run.task
      ensures View() == CountedOne(old(View()), counted, run.createdAt).(runs := old(View()).runs[id := run])
      ensures old(Synced()) && MayCountRun(old(View()), run.task, counted) ==>
                (Synced() <==> MayInsertRun(old(View()), id, run))
    {
      ghost var w := View().(next := loaded.next);
      var before := pending;
      counted := IncrementScheduleRunCount(run.task, run.createdAt);
      ghost var w1 := View().(next := loaded.next);
      InsertRunMirrors(w1, id, run);
      runs := UpsertById(runs, id, run);
      if ExecuteAll(loaded, pending) == Execution(w1, true) {
        OneMoreStatement(w1, pending, RunInsert(id, run), View().(next := loaded.next));
      }
      pending := pending + [RunInsert(id, run)];
    }

    method ReviseWorkTask(id: Id, task: Task, key: RevisionKey, revision: Revision, source: Option<Id>,
                          run: Option<Run>)
      requires Valid() && (source.Some? <==> run.Some?)
      modifies this`tasks, this`revisions, this`runs, this`pending
      ensures Valid() && View() == RevisedInMemory(old(View()), id, task, key, revision, source, run)
      ensures old(Synced()) ==> (Synced() <==> MayRevise(old(View()), id, task, run, source, key, revision))
    {
      hide ToMap, Mirrors, UniqueIds, ExecuteAll, RevisionRow, RevisedTaskRow;
      ghost var w := View().(next := loaded.next);
      var statement := TaskRevise(id, task, source, key, revision.changedBy, revision.reason);
      tasks := UpsertById(tasks, id, task);
      revisions := UpsertById(revisions, key, revision);
      if run.Some? {
        runs := UpsertById(runs, source.value, run.value);
      }
      ReviseMirrors(w, id, task, key, revision, source, run);
      if old(Synced()) { OneMoreStatement(w, pending, statement, View().(next := loaded.next)); }
      pending := pending + [statement];
    }

    // -------------------------------------------------------------- queries

    method GetWorkTask(id: Id) returns (task: Option<Task>)
      ensures task == if id in View().tasks then Some(View().tasks[id]) else None
    {
      task := Find(tasks, id);
    }

    method GetWorkSchedule(id: Id) returns (schedule: Option<Schedule>)
      ensures schedule == if id in View().schedules then Some(View().schedules[id]) else None
    {
      schedule := Find(schedules, id);
    }

    method GetWorkRun(id: Id) returns (run: Option<Run>)
      ensures run == if id in View().runs then Some(View().runs[id]) else None
    {
      run := Find(runs, id);
    }

    lemma UniqueRow<V>(rows: seq<Entry<Id, V>>, i: nat)
      requires UniqueIds(rows) && i < |rows|
      ensures rows[i].id in ToMap(rows) && ToMap(rows)[rows[i].id] == rows[i].row
    {
      ToMapFirst(rows, i);
    }

    /** The runs of a task, filtered and sorted by creation. */
    method ListWorkRuns(t: Id) returns (ids: seq<Id>)
      requires Valid() && forall r :: r in View().runs ==> r < View().next
      ensures ids == RunIdsOf(View().runs, t, View().next)
    {
      ids := [];
      var index := 0;
      while index < |runs|
        invariant 0 <= index <= |runs| && Ascending(ids)
        invariant forall r :: r in ids <==> exists i :: 0 <= i < index && runs[i].id == r && runs[i].row.task == t
      {
        var entry := runs[index];
        if entry.row.task == t {
          ids := InsertAscending(ids, entry.id);
        }
        index := index + 1;
      }
      RunIdsComplete(View().runs, t, next);
      forall r ensures r in ids <==> r in RunIdsOf(View().runs, t, next) {
        if r in ids {
          var i :| 0 <= i < |runs| && runs[i].id == r && runs[i].row.task == t;
          UniqueRow(runs, i);
        }
        if r in RunIdsOf(View().runs, t, next) {
          ToMapKeys(runs, r);
          var i :| 0 <= i < |runs| && runs[i].id == r;
          UniqueRow(runs, i);
        }
      }
      AscendingIsUnique(ids, RunIdsOf(View().runs, t, next));
    }

    /** The schedules of a task; their order is of no consequence, for a task has at most one. */
    method ListWorkSchedules(t: Id) returns (ids: seq<Id>)
      requires Valid() && forall s :: s in View().schedules ==> s < View().next
      ensures ids == ScheduleIdsOf(View().schedules, t, View().next)
    {
      ids := [];
      var index := 0;
      while index < |schedules|
        invariant 0 <= index <= |schedules| && Ascending(ids)
        invariant forall s :: s in ids <==>
                                exists i :: 0 <= i < index && schedules[i].id == s && schedules[i].row.task == t
      {
        var entry := schedules[index];
        if entry.row.task == t {
          ids := InsertAscending(ids, entry.id);
        }
        index := index + 1;
      }
      ScheduleIdsComplete(View().schedules, t, next);
      forall s ensures s in ids <==> s in ScheduleIdsOf(View().schedules, t, next) {
        if s in ids {
          var i :| 0 <= i < |schedules| && schedules[i].id == s && schedules[i].row.task == t;
          UniqueRow(schedules, i);
        }
        if s in ScheduleIdsOf(View().schedules, t, next) {
          ToMapKeys(schedules, s);
          var i :| 0 <= i < |schedules| && schedules[i].id == s;
          UniqueRow(schedules, i);
        }
      }
      AscendingIsUnique(ids, ScheduleIdsOf(View().schedules, t, next));
    }

    // -------------------------------------------------------------- save and close

    /** Runs the queued statements on the database's tables, in order, up to the first that is rejected. */
    method Flush(w: Tables) returns (written: Tables, ok: bool)
      ensures Execution(written, ok) == ExecuteAll(w, pending)
    {
      written, ok := w, true;
      var index := 0;
      while index < |pending|
        invariant 0 <= index <= |pending|
        invariant Execution(written, ok) == ExecuteAll(w, pending[..index])
      {
        ExecuteOneMore(w, pending[..index], pending[index]);
        assert pending[..index + 1] == pending[..index] + [pending[index]];
        if ok {
          if Rejected(written, pending[index]) {
            ok := false;
          } else {
            written := Apply(written, pending[index]);
          }
        }
        index := index + 1;
      }
      assert pending[..index] == pending;
    }
  }
}
