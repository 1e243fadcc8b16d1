/** Which run the dispatcher chooses, and why dispatching comes to an end. */
module DispatchOrder {
  import opened Prelude
  import opened WorkDomain
  import opened WorkOperations
  import opened WorkInvariants
  import opened Company
  import opened CompanyInvariants
  import opened CompanyKept
  import opened CompanyTheorems

  // ---------------------------------------------------------------- the choice

  lemma {:induction false} OldestCandidateIsOldest(st: Store, retries: bool, r: Id)
    requires r <= st.work.next
    ensures forall q :: r <= q < st.work.next && IsCandidate(st, q) && (retries ==> IsExplicitRetry(st, q)) ==>
                          OldestCandidate(st, retries, r).Some? && OldestCandidate(st, retries, r).value <= q
    decreases st.work.next - r
  {
    hide IsCandidate, IsExplicitRetry;
    if r < st.work.next && !(IsCandidate(st, r) && (retries ==> IsExplicitRetry(st, r))) {
      OldestCandidateIsOldest(st, retries, r + 1);
    }
  }

  /** The dispatcher finds a run whenever one may go out: the oldest that somebody asked to retry, or
      else the oldest of all; and the assignee of the run it finds is doing nothing else. */
  lemma TheChoiceIsTheOldest(st: Store)
    requires forall r :: r in st.work.runs ==> r < st.work.next
    ensures NextCandidate(st).Some? ==> IsChoice(st, NextCandidate(st).value)
    ensures NextCandidate(st).Some? ==> Idle(st.work, st.work.runs[NextCandidate(st).value].assignee)
    ensures NextCandidate(st).None? ==> forall r :: r in st.work.runs ==> !IsCandidate(st, r)
  {
    hide IsExplicitRetry, Idle, LatestIs;
    OldestCandidateIsOldest(st, true, 0);
    OldestCandidateIsOldest(st, false, 0);
  }

  // ---------------------------------------------------------------- draining

  /** The runs that may still go out: queued, and not held back by a failed lease. */
  ghost function Waiting(st: Store): set<Id> {
    set r | r in st.work.runs && st.work.runs[r].status == Queued && !LatestIs(st, r, {LeaseFailed})
  }

  /** Every dispatch that finds a run takes exactly that run out of the waiting ones, whether its
      employee is found or not, so draining the queue ends. */
  lemma DispatchDrains(st: Store, createdBy: string, s: Setting)
    requires Inv(st) && NextCandidate(st).Some?
    ensures var r := NextCandidate(st).value;
            r in Waiting(st) && Waiting(Dispatch(st, createdBy, s).store) == Waiting(st) - {r}
    ensures |Waiting(Dispatch(st, createdBy, s).store)| < |Waiting(st)|
  {
    hide InvExcept, NextCandidate, LeaseFor, AcknowledgeLease, FailPendingLease, MoveRun, LeasesGoOn;
    var r := NextCandidate(st).value;
    var assignee := st.work.runs[r].assignee;
    var leased := LeaseFor(st, r, createdBy, s);
    LeaseForKeepsCompany(st, r, createdBy, s, {});
    LeaseForTouchesOne(st, r, createdBy, s, {});
    if assignee !in s.homes {
      FailedLeaseHoldsBack(leased, r, UNRESOLVED, s.now);
    } else {
      TakenLeaseLeavesNone(leased, r, s.now, {});
      StartedRunIsNotQueued(leased, r, s);
    }
  }

  lemma LeaseForTouchesOne(st: Store, r: Id, createdBy: string, s: Setting, except: set<Id>)
    requires InvExcept(st, except) && IsCandidate(st, r)
    ensures var leased := LeaseFor(st, r, createdBy, s);
            forall q :: q != r ==> Latest(leased, q) == Latest(st, q)
                                   && (Latest(st, q).Some? ==>
                                         leased.leases[Latest(st, q).value] == st.leases[Latest(st, q).value])
  {
    hide InvExcept, IsExplicitRetry, LatestIs, Idle, Latest;
    LeaseIdIsFresh(st, except);
    if !IsExplicitRetry(st, r) {
      forall q | q != r ensures Latest(LeaseFor(st, r, createdBy, s), q) == Latest(st, q) {
        AddedLeaseIsNotLatest(st, PendingLease(r, st.work.runs[r].assignee, createdBy, None, FromDispatcher, s), q);
      }
    }
  }

  lemma AddedLeaseIsNotLatest(st: Store, lease: Lease, q: Id)
    requires (forall l :: l in st.leases ==> l < st.work.next) && lease.run != q
    ensures Latest(AddLease(st, lease), q) == Latest(st, q)
  {
    LatestMeans(st, q);
    LatestMeans(AddLease(st, lease), q);
    match Latest(st, q)
    case None =>
    case Some(l) => assert IsLatest(AddLease(st, lease).leases, l); LatestFound(AddLease(st, lease), l);
  }

  /** Where only the run r and its leases have changed, only r can have stopped waiting. */
  lemma OnlyOneStopsWaiting(st: Store, st': Store, r: Id)
    requires r in st.work.runs && r in st'.work.runs && st'.work.runs == st.work.runs[r := st'.work.runs[r]]
    requires forall q :: q != r ==> Latest(st', q) == Latest(st, q)
                                    && (Latest(st, q).Some? ==>
                                          st'.leases[Latest(st, q).value] == st.leases[Latest(st, q).value])
    requires r !in Waiting(st')
    ensures Waiting(st') == Waiting(st) - {r}
  {
    hide Latest;
  }

  lemma FailedLeaseHoldsBack(st: Store, r: Id, reason: string, now: Time)
    requires LatestIs(st, r, {Pending}) && r in st.work.runs && st.work.runs[r].status == Queued
    ensures Waiting(FailPendingLease(st, r, reason, now)) == Waiting(st) - {r}
  {
    var st' := FailPendingLease(st, r, reason, now);
    forall q ensures Latest(st', q) == Latest(st, q) {
      LatestOnlyReadsRuns(st.leases, st'.leases, q, st.work.next);
    }
    OnlyOneStopsWaiting(st, st', r);
  }

  lemma StartedRunIsNotQueued(st: Store, r: Id, s: Setting)
    requires Inv(st) && LatestIs(st, r, {Pending}) && r in st.work.runs && st.work.runs[r].status == Queued
    ensures var assignee := st.work.runs[r].assignee;
            var taken := AcknowledgeLease(st, r, assignee, s.now);
            Waiting(taken.(work := MoveRun(taken.work, StartInput(r, assignee), s.now).work)) == Waiting(st) - {r}
  {
    hide InvExcept, MoveRun;
    var assignee := st.work.runs[r].assignee;
    var taken := AcknowledgeLease(st, r, assignee, s.now);
    var started := MoveRun(st.work, StartInput(r, assignee), s.now);
    BooksOfCompany(st, {});
    AssigneeIsNamed(st.work, r);
    StartingIsAllowed(st.work, r, s.now);
    MoveRunMoves(st.work, StartInput(r, assignee), s.now);
    LeaseIdIsFresh(st, {});
    TakenLeases(st, r, assignee, s.now);
    hide AcknowledgeLease, Latest, Waiting;
    forall q ensures Latest(taken.(work := started.work), q) == Latest(st, q) {
      LatestStays(taken, started.work, q);
    }
    NotQueuedIsNotWaiting(taken.(work := started.work), r);
    OnlyOneStopsWaiting(st, taken.(work := started.work), r);
  }

  lemma NotQueuedIsNotWaiting(st: Store, r: Id)
    requires r in st.work.runs && st.work.runs[r].status != Queued
    ensures r !in Waiting(st)
  {
  }

  lemma TakenLeases(st: Store, r: Id, assignee: string, now: Time)
    ensures var taken := AcknowledgeLease(st, r, assignee, now);
            && taken.work == st.work && taken.leases.Keys == st.leases.Keys
            && forall q :: Latest(taken, q) == Latest(st, q)
                           && (q != r && Latest(st, q).Some? ==>
                                 taken.leases[Latest(st, q).value] == st.leases[Latest(st, q).value])
  {
    var taken := AcknowledgeLease(st, r, assignee, now);
    forall q ensures Latest(taken, q) == Latest(st, q) {
      LatestOnlyReadsRuns(st.leases, taken.leases, q, st.work.next);
    }
  }

  lemma StartingIsAllowed(w: Tables, r: Id, now: Time)
    requires r in w.runs && w.runs[r].status == Queued && NonBlank(w.runs[r].assignee)
    ensures MoveRun(w, StartInput(r, w.runs[r].assignee), now).result.Ok?
  {
  }

  // ---------------------------------------------------------------- what a dispatch leaves alone

  /** The run and its latest lease are as they were. */
  ghost predicate LeftAlone(st: Store, st': Store, q: Id) {
    && (q in st.work.runs ==> q in st'.work.runs && st'.work.runs[q] == st.work.runs[q])
    && Latest(st', q) == Latest(st, q)
    && (Latest(st, q).Some? ==> st'.leases[Latest(st, q).value] == st.leases[Latest(st, q).value])
  }

  /** A dispatch touches no run but the one it has chosen. */
  lemma DispatchTouchesOne(st: Store, createdBy: string, s: Setting, q: Id, except: set<Id>)
    requires InvExcept(st, except) && (NextCandidate(st).Some? ==> q != NextCandidate(st).value)
    ensures LeftAlone(st, Dispatch(st, createdBy, s).store, q)
  {
    hide InvExcept, NextCandidate, LeaseFor, AcknowledgeLease, FailPendingLease, MoveRun, LeasesGoOn, Latest;
    match NextCandidate(st)
    case None =>
    case Some(r) =>
      var leased := LeaseFor(st, r, createdBy, s);
      LeaseForKeepsCompany(st, r, createdBy, s, except);
      LeaseForTouchesOne(st, r, createdBy, s, except);
      if st.work.runs[r].assignee !in s.homes {
        FailPendingTouchesLeases(leased, r, UNRESOLVED, s.now);
        FailedLeaseTouchesOne(leased, r, UNRESOLVED, s.now, q);
      } else {
        StartTouchesOne(leased, r, s.now, q, except);
      }
  }

  lemma FailedLeaseTouchesOne(st: Store, r: Id, reason: string, now: Time, q: Id)
    requires q != r
    ensures LeftAlone(st, FailPendingLease(st, r, reason, now), q)
  {
    LatestOnlyReadsRuns(st.leases, FailPendingLease(st, r, reason, now).leases, q, st.work.next);
  }

  lemma StartTouchesOne(st: Store, r: Id, now: Time, q: Id, except: set<Id>)
    requires InvExcept(st, except) && r in st.work.runs && q != r
    ensures var taken := AcknowledgeLease(st, r, st.work.runs[r].assignee, now);
            LeftAlone(st, taken.(work := MoveRun(taken.work, StartInput(r, st.work.runs[r].assignee), now).work), q)
  {
    hide InvExcept, AcknowledgeLease, MoveRun, StartInput, LeftAlone, Latest;
    var assignee := st.work.runs[r].assignee;
    BooksOfCompany(st, except);
    AssigneeIsNamed(st.work, r);
    LeaseIdIsFresh(st, except);
    TakenLeases(st, r, assignee, now);
    StartMovesOne(st.work, r, assignee, now);
    MovedLeavesOthers(st, AcknowledgeLease(st, r, assignee, now), MoveRun(st.work, StartInput(r, assignee), now).work,
                      r, q);
  }

  lemma MovedLeavesOthers(st: Store, taken: Store, w: Tables, r: Id, q: Id)
    requires taken.work == st.work && taken.leases.Keys == st.leases.Keys
             && (forall l :: l in st.leases ==> l < st.work.next)
    requires Latest(taken, q) == Latest(st, q)
             && (Latest(st, q).Some? ==> taken.leases[Latest(st, q).value] == st.leases[Latest(st, q).value])
    requires st.work.next <= w.next && r in w.runs && w.runs == st.work.runs[r := w.runs[r]] && q != r
    ensures LeftAlone(st, taken.(work := w), q)
  {
    LatestStays(taken, w, q);
    hide Latest;
  }

  lemma StartMovesOne(w: Tables, r: Id, assignee: string, now: Time)
    requires BooksOk(w) && r in w.runs && NonBlank(assignee)
    ensures var w' := MoveRun(w, StartInput(r, assignee), now).work;
            && w.next <= w'.next && r in w'.runs && w'.runs == w.runs[r := w'.runs[r]]
  {
    hide BooksOk, MoveRun, NonBlank;
    MoveRunChangesOne(w, StartInput(r, assignee), now);
  }
}
