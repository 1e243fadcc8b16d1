/** What every reachable state of a company keeps about its leases and recovery requests. */
module CompanyInvariants {
  import opened Prelude
  import opened WorkDomain
  import opened WorkInvariants
  import opened Company

  /** A retry lease answers an earlier failed lease of the same run; a pending lease is the latest of its
      run, which is still queued. */
  ghost predicate LeaseFits(st: Store, l: Id)
    requires l in st.leases
  {
    var lease := st.leases[l];
    && l < st.work.next
    && lease.run in st.work.runs && lease.assignee == st.work.runs[lease.run].assignee
    && (lease.retryOf.Some? ==> AnswersFailure(st.leases, l, lease.retryOf.value))
    && (lease.source == FromRunAction ==> lease.retryOf.Some?)
    && (lease.status == Pending ==> st.work.runs[lease.run].status == Queued && IsLatest(st.leases, l))
  }

  predicate AnswersFailure(leases: map<Id, Lease>, l: Id, f: Id)
    requires l in leases
  {
    f in leases && f < l && leases[f].run == leases[l].run && leases[f].status == LeaseFailed
  }

  ghost predicate IsLatest(leases: map<Id, Lease>, l: Id)
    requires l in leases
  {
    forall k :: k in leases && leases[k].run == leases[l].run ==> k <= l
  }

  ghost predicate LeasesOk(st: Store) {
    forall l :: l in st.leases ==> LeaseFits(st, l)
  }

  /** A request is about its run, and between two different members. */
  predicate RequestFits(st: Store, r: Id)
    requires r in st.requests
  {
    var request := st.requests[r];
    && r in st.work.runs && request.task == st.work.runs[r].task && request.assignee == st.work.runs[r].assignee
    && request.requester != request.assignee
    && request.conversation < st.work.next
  }

  ghost predicate RequestsOk(st: Store) {
    && (forall r :: r in st.requests ==> RequestFits(st, r))
    && (forall q, r :: q in st.requests && r in st.requests && q != r ==>
          st.requests[q].conversation != st.requests[r].conversation)
  }

  predicate HasOpenRequest(st: Store, r: Id) {
    r in st.requests && st.requests[r].status == Open
  }

  /** Every blocked run, but those in the given set, can be reached through an open request. */
  ghost predicate BlockedReachable(st: Store, except: set<Id>) {
    forall r :: r in st.work.runs && st.work.runs[r].status == Blocked && r !in except ==> HasOpenRequest(st, r)
  }

  ghost predicate InvExcept(st: Store, except: set<Id>) {
    BooksOk(st.work) && LeasesOk(st) && RequestsOk(st) && BlockedReachable(st, except)
  }

  ghost predicate Inv(st: Store) {
    InvExcept(st, {})
  }

  // ---------------------------------------------------------------- the latest lease

  lemma {:induction false} LatestLeaseIs(leases: map<Id, Lease>, l: Id, n: Id)
    requires l in leases && l < n && forall k :: k in leases && leases[k].run == leases[l].run && k < n ==> k <= l
    ensures LatestLease(leases, leases[l].run, n) == Some(l)
  {
    if l < n - 1 { LatestLeaseIs(leases, l, n - 1); }
  }

  lemma {:induction false} LatestLeaseBounds(leases: map<Id, Lease>, r: Id, n: Id)
    ensures match LatestLease(leases, r, n)
            case None => forall k :: k in leases && k < n ==> leases[k].run != r
            case Some(l) => forall k :: k in leases && leases[k].run == r && k < n ==> k <= l
  {
    if n != 0 { LatestLeaseBounds(leases, r, n - 1); }
  }

  /** The service finds the lease that no other lease of the run comes after. */
  lemma LatestMeans(st: Store, r: Id)
    requires forall l :: l in st.leases ==> l < st.work.next
    ensures Latest(st, r).None? <==> forall k :: k in st.leases ==> st.leases[k].run != r
    ensures Latest(st, r).Some? ==> IsLatest(st.leases, Latest(st, r).value)
  {
    LatestLeaseBounds(st.leases, r, st.work.next);
  }

  lemma LatestFound(st: Store, l: Id)
    requires l in st.leases && l < st.work.next && IsLatest(st.leases, l)
    ensures Latest(st, st.leases[l].run) == Some(l)
  {
    LatestLeaseIs(st.leases, l, st.work.next);
  }
}
