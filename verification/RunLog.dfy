/** The event log of a run, read as the path the run took through its statuses, and the agreement of
    that path and of the run's own fields with its current status. */
module RunLog {
  import opened Prelude
  import opened WorkDomain
  import opened WorkOperations

  /** What a log says about its run: nothing yet, a status, or a step that is not allowed. */
  datatype Trace = Unborn | At(status: RunStatus) | Broken

  /** The event types that stand for statuses; every other type is a remark. */
  function StatusOfEvent(eventType: string): Option<RunStatus> {
    if eventType == "created" then Some(Queued)
    else if eventType == "started" then Some(InProgress)
    else if eventType == "blocked" then Some(Blocked)
    else if eventType == "completed" then Some(Done)
    else if eventType == "failed" then Some(Failed)
    else if eventType == "canceled" then Some(Canceled)
    else None
  }

  function Advance(trace: Trace, step: RunStatus): Trace {
    match trace
    case Unborn => if step == Queued then At(Queued) else Broken
    case At(status) => if step in AllowedRunMoves(status) then At(step) else Broken
    case Broken => Broken
  }

  function Read(trace: Trace, event: Event): Trace {
    match StatusOfEvent(event.eventType)
    case None => trace
    case Some(step) => Advance(trace, step)
  }

  /** Folds the events of a run that have ids below n, oldest first. */
  function Replay(events: map<Id, Event>, r: Id, n: Id): Trace {
    if n == 0 then Unborn
    else
      var before := Replay(events, r, n - 1);
      if n - 1 in events && events[n - 1].run == r then Read(before, events[n - 1]) else before
  }

  /** Every field that belongs to a status is there exactly when it should be. */
  ghost predicate FieldsAgree(run: Run) {
    && (run.completedAt.Some? <==> IsTerminal(run.status))
    && (run.status in {InProgress, Blocked, Done, Failed} ==> run.startedAt.Some?)
    && (run.status == Queued ==> run.startedAt.None?)
    && (run.status == Blocked ==> run.blockedReason.Some? && NonBlank(run.blockedReason.value))
    && (run.status == Failed ==> run.failedReason.Some? && NonBlank(run.failedReason.value))
    && (run.status == Canceled ==> run.canceledReason.Some? && NonBlank(run.canceledReason.value))
    && (run.status == Done ==> run.resultSummary.Some? && NonBlank(run.resultSummary.value))
  }

  ghost predicate LogAgrees(w: Tables, r: Id)
    requires r in w.runs
  {
    Replay(w.events, r, w.next) == At(w.runs[r].status)
  }

  /** Both agreements, for every run. */
  ghost predicate LogsOk(w: Tables) {
    && EventsOk(w)
    && (forall r :: r in w.runs ==> r < w.next && FieldsAgree(w.runs[r]) && LogAgrees(w, r))
  }

  // ---------------------------------------------------------------- replaying longer logs

  /** Two logs that agree on the events of a run below n replay alike. */
  lemma {:induction false} ReplayFrame(a: map<Id, Event>, b: map<Id, Event>, r: Id, n: Id)
    requires forall e :: e < n ==> ((e in a && a[e].run == r) <==> (e in b && b[e].run == r))
    requires forall e :: e < n && e in a && a[e].run == r ==> a[e] == b[e]
    ensures Replay(a, r, n) == Replay(b, r, n)
  {
    if n != 0 { ReplayFrame(a, b, r, n - 1); }
  }

  /** Ids that hold no event of the run add nothing. */
  lemma {:induction false} ReplayGap(events: map<Id, Event>, r: Id, n: Id, m: Id)
    requires n <= m
    requires forall e :: n <= e < m && e in events ==> events[e].run != r
    ensures Replay(events, r, m) == Replay(events, r, n)
  {
    if n < m { ReplayGap(events, r, n, m - 1); }
  }

  /** Appending one event reads it last. */
  lemma ReplayAppend(w: Tables, event: Event, r: Id)
    requires forall e :: e in w.events ==> e < w.next
    ensures var w' := LogEvent(w, event);
            Replay(w'.events, r, w'.next)
            == if event.run == r then Read(Replay(w.events, r, w.next), event) else Replay(w.events, r, w.next)
  {
    ReplayFrame(w.events, LogEvent(w, event).events, r, w.next);
  }

  // ---------------------------------------------------------------- what keeps the agreement

  /** Tables with the same runs and events, and ids that only grow, keep the agreement. */
  lemma LogsOkFrame(w: Tables, w': Tables)
    requires LogsOk(w)
    requires w'.events == w.events && w.next <= w'.next
    requires w'.runs.Keys == w.runs.Keys
    requires forall r :: r in w.runs ==> w'.runs[r].status == w.runs[r].status && FieldsAgree(w'.runs[r])
    ensures LogsOk(w')
  {
    forall r | r in w'.runs ensures LogAgrees(w', r) {
      ReplayGap(w.events, r, w.next, w'.next);
      assert LogAgrees(w, r);
    }
  }

  /** A new queued run with its "created" event keeps it. */
  lemma LogsOkBorn(w: Tables, run: Run, event: Event)
    requires LogsOk(w)
    requires run.status == Queued && FieldsAgree(run)
    requires event.run == w.next && event.eventType == "created"
    ensures LogsOk(LogEvent(w.(next := w.next + 1, runs := w.runs[w.next := run]), event))
  {
    var born := w.next;
    var w1 := w.(next := w.next + 1, runs := w.runs[w.next := run]);
    var w2 := LogEvent(w1, event);
    forall r | r in w2.runs ensures LogAgrees(w2, r) {
      ReplayAppend(w1, event, r);
      ReplayGap(w.events, r, born, born + 1);
      if r == born {
        ReplayGap(w.events, r, 0, born);
      } else {
        assert LogAgrees(w, r);
      }
    }
  }

  /** An allowed step of one run, logged under its own event type, keeps it. */
  lemma LogsOkStep(w: Tables, r: Id, run: Run, event: Event)
    requires LogsOk(w) && r in w.runs
    requires run.status in AllowedRunMoves(w.runs[r].status) && FieldsAgree(run)
    requires event.run == r && StatusOfEvent(event.eventType) == Some(run.status)
    ensures LogsOk(LogEvent(w.(runs := w.runs[r := run]), event))
  {
    var w1 := w.(runs := w.runs[r := run]);
    var w2 := LogEvent(w1, event);
    forall q | q in w2.runs ensures LogAgrees(w2, q) {
      ReplayAppend(w1, event, q);
      assert LogAgrees(w, q);
    }
  }

  /** Recording an event keeps the agreement exactly when the event is a remark, or repeats the one
      status a run may enter again: blocked. */
  lemma LogsOkRemark(w: Tables, event: Event)
    requires LogsOk(w) && event.run in w.runs
    ensures LogsOk(LogEvent(w, event))
            <==> StatusOfEvent(event.eventType) == None
                 || (StatusOfEvent(event.eventType) == Some(Blocked) && w.runs[event.run].status == Blocked)
  {
    var w' := LogEvent(w, event);
    forall r | r in w.runs
      ensures LogAgrees(w, r)
      ensures Replay(w'.events, r, w'.next) == if event.run == r then Read(At(w.runs[r].status), event)
                                               else At(w.runs[r].status)
    {
      ReplayAppend(w, event, r);
    }
    if LogsOk(w') {
      assert LogAgrees(w', event.run);
    }
  }

  /** A status change that is not logged breaks the agreement, whatever the change. */
  lemma LogsOkNeedsTheEvent(w: Tables, r: Id, run: Run)
    requires LogsOk(w) && r in w.runs && run.status != w.runs[r].status
    ensures !LogsOk(w.(runs := w.runs[r := run]))
  {
    assert LogAgrees(w, r);
    assert !LogAgrees(w.(runs := w.runs[r := run]), r);
  }
}
