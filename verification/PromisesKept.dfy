/** What a caller has asked createWork for, kept over every run of the system. */
module PromisesKept {
  import opened Prelude
  import opened WorkDomain
  import opened WorkOperations
  import opened Listings
  import opened RunLog
  import opened WorkInvariants
  import opened RecordsKept
  import opened SchedulesKept
  import opened OneShotsKept
  import opened BooksKept
  import opened WorkEffects
  import opened WorkHistory
  import opened Company
  import opened CompanyInvariants
  import opened CompanyHistory
  import opened CompanyTheorems

  /** The task has a schedule with the start, the interval and the limit that were asked for. */
  predicate HasPlan(w: Tables, t: Id, input: CreateInput) {
    && t + 1 in w.schedules
    && var schedule := w.schedules[t + 1];
       && schedule.task == t && schedule.kind == input.kind && schedule.start == input.scheduledFor
       && schedule.maxRuns == input.maxRuns && (input.kind == Recurring ==> schedule.intervalMs == input.intervalMs)
  }

  /** Scheduled work that is accepted has the schedule that was asked for, whatever happens afterwards. */
  lemma ThePlanStays(st: Store, input: CreateInput, s: Setting, turns: seq<Turn>)
    requires Reachable(st) && AllProper(Step(st, CreateWorkOp(input), s), turns)
    requires CreateWork(st.work, input, s.directory, s.now).result.Ok? && input.kind in {ScheduledOnce, Recurring}
    ensures var t := CreateWork(st.work, input, s.directory, s.now).result.value;
            var later := After(Step(st, CreateWorkOp(input), s), turns);
            Reachable(later) && HasPlan(later.work, t, input)
  {
    hide Reachable, BooksOk, CreateWork, After, AllProper, NonBlank, RefsOk, RecordsOk, SchedulesOk, LivesOk;
    hide TaskIsAsAsked, LogsOk, EventsOk, IsFirstRevision, InvExcept;
    ReachableIsInOrder(st);
    BooksHaveGroups(st.work);
    CreateWorkIsAcceptedExactly(st.work, input, s.directory, s.now);
    CreateWorkMeans(st.work, input, s.directory, s.now);
    CreatingIsAStep(st, input, s);
    ReachableStep(st, CreateWorkOp(input), s);
    var created := Step(st, CreateWorkOp(input), s);
    hide Step;
    ReachableGoesOn(created, turns);
    PlanGoesOn(created, After(created, turns), CreateWork(st.work, input, s.directory, s.now).result.value + 1);
  }

  lemma CreatingIsAStep(st: Store, input: CreateInput, s: Setting)
    ensures Step(st, CreateWorkOp(input), s) == st.(work := CreateWork(st.work, input, s.directory, s.now).work)
    ensures Proper(st, CreateWorkOp(input))
  {
    hide CreateWork;
  }

  lemma PlanGoesOn(a: Store, b: Store, p: Id)
    requires CompanyGoesOn(a, b) && p in a.work.schedules
    ensures p in b.work.schedules && b.work.schedules[p].task == a.work.schedules[p].task
            && SamePlan(a.work.schedules[p], b.work.schedules[p])
  {
  }

  /** Recurring work: from its creation on, in every continuation, the runs that its schedule has fired are for
      the start that was asked for and the intervals after it, in order, and never more than were asked for. */
  lemma RecurringWorkGoesAsAsked(st: Store, input: CreateInput, s: Setting, turns: seq<Turn>)
    requires Reachable(st) && AllProper(Step(st, CreateWorkOp(input), s), turns)
    requires CreateWork(st.work, input, s.directory, s.now).result.Ok? && input.kind == Recurring
    ensures input.scheduledFor.Some? && input.intervalMs.Some?
    ensures var t := CreateWork(st.work, input, s.directory, s.now).result.value;
            var w := After(Step(st, CreateWorkOp(input), s), turns).work;
            var ids := FiredIdsOf(w.runs, t, w.next);
            && (input.maxRuns.Some? ==> |FiredRuns(w, t)| <= input.maxRuns.value)
            && Ascending(ids) && |ids| == |FiredRuns(w, t)| && (forall r :: r in ids <==> r in FiredRuns(w, t))
            && forall i :: 0 <= i < |ids| ==>
                             && ids[i] in w.runs
                             && w.runs[ids[i]].scheduledFor
                                == Some(input.scheduledFor.value + i * input.intervalMs.value)
  {
    hide Reachable, CreateWork, After, AllProper, Step, FiredRuns, FiredIdsOf, Ascending, NonBlank;
    CreateWorkIsAcceptedExactly(st.work, input, s.directory, s.now);
    ThePlanStays(st, input, s, turns);
    RecurringSlotsAreFilledInOrder(After(Step(st, CreateWorkOp(input), s), turns),
                                   CreateWork(st.work, input, s.directory, s.now).result.value + 1);
  }

  /** Work for one time: in every continuation it has fired once at most, for the time that was asked for. */
  lemma OnceWorkGoesAsAsked(st: Store, input: CreateInput, s: Setting, turns: seq<Turn>)
    requires Reachable(st) && AllProper(Step(st, CreateWorkOp(input), s), turns)
    requires CreateWork(st.work, input, s.directory, s.now).result.Ok? && input.kind == ScheduledOnce
    ensures var t := CreateWork(st.work, input, s.directory, s.now).result.value;
            var w := After(Step(st, CreateWorkOp(input), s), turns).work;
            && |FiredRuns(w, t)| <= 1
            && forall r :: r in FiredRuns(w, t) ==> w.runs[r].scheduledFor == input.scheduledFor
  {
    hide Reachable, CreateWork, After, AllProper, Step, FiredRuns, FiredIdsOf, Ascending, NonBlank;
    ThePlanStays(st, input, s, turns);
    OnceFiresAtMostOnce(After(Step(st, CreateWorkOp(input), s), turns),
                        CreateWork(st.work, input, s.directory, s.now).result.value + 1);
  }
}
