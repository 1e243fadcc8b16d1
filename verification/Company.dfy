/** Everything one company keeps about its work - the Work tables, the dispatch leases and the recovery
    requests - and what each public service operation does to it.  An operation is atomic here; the
    executor, whose operations span many provider turns, appears as the moves it makes. */
module Company {
  import opened Prelude
  import opened WorkDomain
  import opened WorkOperations

  datatype LeaseStatus = Pending | Acknowledged | LeaseFailed | LeaseCanceled

  /** What the lease's metadata says of its source. */
  datatype LeaseSource = FromDispatcher | FromRunAction

  datatype Lease = Lease(
    run: Id, assignee: string, status: LeaseStatus, dispatchedAt: Time, expiresAt: Time,
    acknowledgedAt: Option<Time>, failedAt: Option<Time>, canceledAt: Option<Time>, failureReason: Option<string>,
    retryOf: Option<Id>, createdBy: string, source: LeaseSource)

  datatype RequestStatus = Open | Resolved | RequestCanceled

  datatype Request = Request(
    id: Id, task: Id, assignee: string, requester: string, conversation: Id, status: RequestStatus,
    createdAt: Time, updatedAt: Time, resolvedAt: Option<Time>, canceledAt: Option<Time>)

  /** Recovery requests are keyed by their run, as the table's unique constraint has it.  Leases,
      requests and conversations draw their ids from the same counter as the Work tables. */
  datatype Store = Store(work: Tables, leases: map<Id, Lease>, requests: map<Id, Request>)

  const NEW_COMPANY := Store(NO_WORK, map[], map[])

  /** What an operation meets: the enabled members, the employees that can be resolved, the time, and
      how long a pending lease lives. */
  datatype Setting = Setting(directory: set<string>, homes: set<string>, now: Time, leaseTtl: int)

  datatype Effect<+T> = Effect(store: Store, result: Result<T, Error>)

  function Worked<T>(st: Store, outcome: Outcome<T>): Effect<T> {
    Effect(st.(work := outcome.work), outcome.result)
  }

  // ---------------------------------------------------------------- dispatch leases

  /** The latest lease of a run, among the ids below n. */
  function LatestLease(leases: map<Id, Lease>, r: Id, n: Id): (l: Option<Id>)
    ensures l.Some? ==> l.value in leases && leases[l.value].run == r && l.value < n
  {
    if n == 0 then None
    else if n - 1 in leases && leases[n - 1].run == r then Some(n - 1)
    else LatestLease(leases, r, n - 1)
  }

  function Latest(st: Store, r: Id): (l: Option<Id>)
    ensures l.Some? ==> l.value in st.leases && st.leases[l.value].run == r && l.value < st.work.next
  {
    LatestLease(st.leases, r, st.work.next)
  }

  predicate LatestIs(st: Store, r: Id, statuses: set<LeaseStatus>) {
    var l := Latest(st, r);
    l.Some? && st.leases[l.value].status in statuses
  }

  function PendingLease(r: Id, assignee: string, createdBy: string, retryOf: Option<Id>, source: LeaseSource,
                        s: Setting): Lease {
    Lease(r, assignee, Pending, s.now, s.now + s.leaseTtl, None, None, None, None, retryOf, createdBy, source)
  }

  function AddLease(st: Store, lease: Lease): Store {
    st.(work := st.work.(next := st.work.next + 1), leases := st.leases[st.work.next := lease])
  }

  function CreateLease(st: Store, lease: Lease): Effect<Id> {
    if LatestIs(st, lease.run, {Pending}) then Effect(st, Err(LeaseIsPending))
    else Effect(AddLease(st, lease), Ok(st.work.next))
  }

  function AcknowledgedLease(lease: Lease, now: Time): Lease {
    lease.(status := Acknowledged, acknowledgedAt := Some(now))
  }

  function FailedLease(lease: Lease, reason: string, now: Time): Lease {
    lease.(status := LeaseFailed, failedAt := Some(now), failureReason := if reason == "" then lease.failureReason
           else Some(reason))
  }

  function CanceledLease(lease: Lease, reason: string, now: Time): Lease {
    lease.(status := LeaseCanceled, canceledAt := Some(now), failureReason := if reason == "" then lease.failureReason
           else Some(reason))
  }

  function AcknowledgeLease(st: Store, r: Id, assignee: string, now: Time): Store {
    match Latest(st, r)
    case None => st
    case Some(l) =>
      if st.leases[l].status == Pending && st.leases[l].assignee == assignee
      then st.(leases := st.leases[l := AcknowledgedLease(st.leases[l], now)]) else st
  }

  function FailPendingLease(st: Store, r: Id, reason: string, now: Time): Store {
    match Latest(st, r)
    case None => st
    case Some(l) =>
      if st.leases[l].status == Pending then st.(leases := st.leases[l := FailedLease(st.leases[l], reason, now)])
      else st
  }

  /** Cancels the latest lease of every run in the list, where it is pending or acknowledged. */
  function CancelLeases(st: Store, ids: set<Id>, reason: string, now: Time): map<Id, Lease> {
    map l | l in st.leases ::
      if st.leases[l].run in ids && Latest(st, st.leases[l].run) == Some(l)
         && st.leases[l].status in {Pending, Acknowledged}
      then CanceledLease(st.leases[l], reason, now) else st.leases[l]
  }

  const EXPIRED := "Company Control Plane recovered an expired pending dispatch lease."

  function ExpireLeases(st: Store, now: Time): Store {
    st.(leases := map l | l in st.leases ::
      if st.leases[l].status == Pending && st.leases[l].expiresAt <= now then FailedLease(st.leases[l], EXPIRED, now)
      else st.leases[l])
  }

  // ---------------------------------------------------------------- recovery requests

  /** What the conversation behind a recovery request does: it works, it is lost before the request is
      stored, or a listener fails once it is stored. */
  datatype Channel = Works | Lost(message: string) | FailsLate(message: string)

  const SAME_MEMBER := "Blocked WorkRun requester matches assignee."

  datatype Opening = Opening(store: Store, failure: Option<string>)

  function Reopened(request: Request, now: Time): Request {
    request.(status := Open, updatedAt := now, resolvedAt := None, canceledAt := None)
  }

  function NewRequest(st: Store, r: Id, requester: string, now: Time): Request
    requires r in st.work.runs
  {
    Request(st.work.next + 1, st.work.runs[r].task, st.work.runs[r].assignee, requester, st.work.next, Open, now, now,
            None, None)
  }

  function LateFailure(channel: Channel): Option<string> {
    if channel.FailsLate? then Some(channel.message) else None
  }

  function OpenRecovery(st: Store, r: Id, channel: Channel, now: Time): Opening {
    if channel.Lost? then Opening(st, Some(channel.message))
    else if r in st.requests && st.requests[r].status == Open then Opening(st, None)
    else if r !in st.work.runs || st.work.runs[r].task !in st.work.tasks then Opening(st, Some("WorkRun not found."))
    else if st.work.runs[r].status != Blocked then Opening(st, Some("WorkRun is not blocked."))
    else if r in st.requests then
      Opening(st.(requests := st.requests[r := Reopened(st.requests[r], now)]), LateFailure(channel))
    else
      var origin := st.work.tasks[st.work.runs[r].task].origin;
      var requester := OrElse(origin.requester, Some(origin.createdBy)).value;
      if requester == st.work.runs[r].assignee then
        Opening(st, Some(SAME_MEMBER))
      else
        Opening(st.(work := st.work.(next := st.work.next + 2),
                    requests := st.requests[r := NewRequest(st, r, requester, now)]),
                LateFailure(channel))
  }

  function CanceledRequest(request: Request, now: Time): Request {
    request.(status := RequestCanceled, updatedAt := now, canceledAt := Some(now))
  }

  function ResolvedRequest(request: Request, now: Time): Request {
    request.(status := Resolved, updatedAt := now, resolvedAt := Some(now))
  }

  function CancelRequests(requests: map<Id, Request>, ids: set<Id>, now: Time): map<Id, Request> {
    map r | r in requests ::
      if r in ids && requests[r].status == Open then CanceledRequest(requests[r], now) else requests[r]
  }

  /** The end of a resumed turn: the request closes with its run, and stays open while that is blocked. */
  function SettleRequest(st: Store, r: Id, now: Time): Store {
    if r !in st.requests || r !in st.work.runs || st.work.runs[r].status == Blocked then st
    else if st.work.runs[r].status == Canceled then
      st.(requests := st.requests[r := CanceledRequest(st.requests[r], now)])
    else st.(requests := st.requests[r := ResolvedRequest(st.requests[r], now)])
  }

  // ---------------------------------------------------------------- dispatch

  predicate Idle(w: Tables, member: string) {
    forall r :: r in w.runs ==> !(w.runs[r].status == InProgress && w.runs[r].assignee == member)
  }

  predicate IsExplicitRetry(st: Store, r: Id) {
    match Latest(st, r)
    case None => false
    case Some(l) => st.leases[l].status == Pending && st.leases[l].retryOf.Some? && st.leases[l].source == FromRunAction
  }

  /** A queued run whose assignee is free and whose latest lease does not hold it back. */
  predicate IsCandidate(st: Store, r: Id) {
    && r in st.work.runs && st.work.runs[r].status == Queued && st.work.runs[r].task in st.work.tasks
    && Idle(st.work, st.work.runs[r].assignee)
    && (IsExplicitRetry(st, r) || !LatestIs(st, r, {Pending, LeaseFailed}))
  }

  /** The dispatcher's choice: the oldest explicit retry, or else the oldest candidate. */
  predicate IsChoice(st: Store, r: Id) {
    && IsCandidate(st, r)
    && (forall q :: q in st.work.runs && q < r && IsCandidate(st, q) ==>
          IsExplicitRetry(st, r) && !IsExplicitRetry(st, q))
    && (!IsExplicitRetry(st, r) ==> forall q :: q in st.work.runs && IsCandidate(st, q) ==> !IsExplicitRetry(st, q))
  }

  function OldestCandidate(st: Store, retries: bool, r: Id): (c: Option<Id>)
    requires r <= st.work.next
    ensures c.Some? ==>
              r <= c.value < st.work.next && IsCandidate(st, c.value) && (retries ==> IsExplicitRetry(st, c.value))
    decreases st.work.next - r
  {
    if r == st.work.next then None
    else if IsCandidate(st, r) && (retries ==> IsExplicitRetry(st, r)) then Some(r)
    else OldestCandidate(st, retries, r + 1)
  }

  function NextCandidate(st: Store): (c: Option<Id>)
    ensures c.Some? ==> IsCandidate(st, c.value)
  {
    var retry := OldestCandidate(st, true, 0);
    if retry.Some? then retry else OldestCandidate(st, false, 0)
  }

  function StartInput(r: Id, assignee: string): MoveInput {
    MoveInput(r, assignee, InProgress, Some("Dispatcher started WorkRun execution."), None, None)
  }

  /** The lease under which the chosen run goes out: its explicit retry, or a new one. */
  function LeaseFor(st: Store, r: Id, createdBy: string, s: Setting): Store
    requires r in st.work.runs
  {
    if IsExplicitRetry(st, r) then st
    else CreateLease(st, PendingLease(r, st.work.runs[r].assignee, createdBy, None, FromDispatcher, s)).store
  }

  const UNRESOLVED := "Cannot dispatch WorkRun: its employee was not found."

  function Dispatch(st: Store, createdBy: string, s: Setting): Effect<Option<Id>> {
    match NextCandidate(st)
    case None => Effect(st, Ok(None))
    case Some(r) =>
      var assignee := st.work.runs[r].assignee;
      var leased := LeaseFor(st, r, createdBy, s);
      if assignee !in s.homes then Effect(FailPendingLease(leased, r, UNRESOLVED, s.now), Err(EmployeeMissing))
      else
        var acknowledged := AcknowledgeLease(leased, r, assignee, s.now);
        var started := MoveRun(acknowledged.work, StartInput(r, assignee), s.now);
        Effect(acknowledged.(work := started.work), if started.result.Ok? then Ok(Some(r))
               else Err(started.result.error))
  }

  /** The retry-dispatch action: a new lease for a queued run whose latest one failed. */
  function RetryDispatch(st: Store, r: Id, actor: string, s: Setting): Effect<Id> {
    if r !in st.work.runs then Effect(st, Err(NotFound))
    else if st.work.runs[r].status != Queued || !LatestIs(st, r, {LeaseFailed}) then Effect(st, Err(LeaseNotFailed))
    else
      var l := Latest(st, r).value;
      CreateLease(st, PendingLease(r, st.leases[l].assignee, actor, Some(l), FromRunAction, s))
  }

  // ---------------------------------------------------------------- cancellation

  predicate NeedsCleanup(status: RunStatus) {
    status == Queued || status == InProgress || status == Blocked || status == Canceled
  }

  /** The runs of a task whose leases and requests its cancellation clears. */
  function CleanupIds(w: Tables, t: Id): set<Id> {
    set r | r in w.runs && w.runs[r].task == t && NeedsCleanup(w.runs[r].status)
  }

  function Cleanup(st: Store, ids: set<Id>, reason: string, now: Time): Store {
    st.(leases := CancelLeases(st, ids, reason, now), requests := CancelRequests(st.requests, ids, now))
  }

  function CancelWorkTask(st: Store, t: Id, actor: string, reason: Option<string>, now: Time): Effect<Id> {
    if t !in st.work.tasks then Effect(st, Err(NotFound))
    else
      var canceled := CancelTask(st.work, t, actor, reason, now);
      if canceled.result.Err? then Worked(st, canceled)
      else
        var why := if reason.None? || reason.value == "" then "WorkTask canceled." else reason.value;
        Effect(Cleanup(st.(work := canceled.work), CleanupIds(st.work, t), why, now), Ok(t))
  }

  function CancelWorkRun(st: Store, r: Id, actor: string, reason: string, summary: Option<string>,
                         now: Time): Effect<Id> {
    if r !in st.work.runs then Effect(st, Err(NotFound))
    else if st.work.runs[r].status in {Done, Failed} then Effect(st, Err(RunIsTerminal))
    else if st.work.runs[r].status == Canceled then Effect(Cleanup(st, {r}, reason, now), Ok(r))
    else
      var moved := MoveRun(st.work, MoveInput(r, actor, Canceled, summary, Some(reason), None), now);
      if moved.result.Err? then Worked(st, moved)
      else Effect(Cleanup(st.(work := moved.work), {r}, reason, now), Ok(r))
  }

  // ---------------------------------------------------------------- the executor's moves

  const CHANNEL_FAILED := "Blocked recovery channel failed: "

  /** The move that gives up a blocked run whose channel could not be opened. */
  function GivingUp(r: Id, actor: string, failure: string): MoveInput {
    MoveInput(r, actor, Failed, Some("WorkRun failed because its recovery conversation could not be opened."),
              Some(CHANNEL_FAILED + failure), None)
  }

  function FailBlocked(st: Store, r: Id, actor: string, failure: string, now: Time): Effect<Id> {
    Worked(st, MoveRun(st.work, GivingUp(r, actor, failure), now))
  }

  /** Only a run whose channel has been opened stays blocked. */
  function AfterOpening(opening: Opening, r: Id, actor: string, now: Time): Effect<Id> {
    match opening.failure
    case None => Effect(opening.store, Ok(r))
    case Some(message) => Effect(FailBlocked(opening.store, r, actor, message, now).store, Err(RecoveryFailed))
  }

  /** Blocks a run and opens its recovery channel; a run whose channel cannot be opened fails. */
  function BlockRun(st: Store, r: Id, actor: string, summary: Option<string>, reason: Option<string>, channel: Channel,
                    now: Time): Effect<Id> {
    var moved := MoveRun(st.work, MoveInput(r, actor, Blocked, summary, reason, None), now);
    if moved.result.Err? then Worked(st, moved)
    else AfterOpening(OpenRecovery(st.(work := moved.work), r, channel, now), r, actor, now)
  }

  // ---------------------------------------------------------------- runs of the system

  /** The three event types an executor records besides its moves. */
  datatype Remark = AutoContinued | Progressed | ProtocolRepair

  function RemarkName(remark: Remark): string {
    match remark
    case AutoContinued => "auto_continued"
    case Progressed => "progress"
    case ProtocolRepair => "protocol_repair"
  }

  datatype Op =
    | CreateWorkOp(input: CreateInput)
    | CreateDueRunOp(schedule: Id, actor: string)
    | RetryRunOp(run: Id, actor: string, assignee: Option<string>)
    | ReviseTaskOp(revise: ReviseInput)
    | MoveScheduleOp(schedule: Id, move: ScheduleMove, reason: Option<string>)
    | CancelTaskOp(task: Id, actor: string, reason: Option<string>)
    | CancelRunOp(run: Id, actor: string, why: string, summary: Option<string>)
    | ArchiveTaskOp(task: Id, actor: string, reason: Option<string>)
    | RestoreTaskOp(task: Id, actor: string)
    | DispatchOp(createdBy: string)
    | RetryDispatchOp(run: Id, actor: string)
    | ExpireLeasesOp
    | MoveRunOp(moved: MoveInput)
    | BlockRunOp(run: Id, actor: string, summary: Option<string>, reason: Option<string>, channel: Channel)
    | RemarkOp(run: Id, actor: string, remark: Remark, text: string)
    | SettleRequestOp(run: Id)

  /** The callers' part: a due run is created, and a run is moved or canceled, by someone; an executor
      moves only a run it has started, and blocks one only together with opening its channel. */
  predicate Proper(st: Store, op: Op) {
    match op
    case CreateDueRunOp(_, actor) => Normalized(Some(actor)).Some?
    case CancelRunOp(_, actor, _, _) => Normalized(Some(actor)).Some?
    case MoveRunOp(input) => Normalized(Some(input.actor)).Some? && Started(st, input.run) && input.status != Blocked
    case BlockRunOp(r, actor, _, _, _) => Normalized(Some(actor)).Some? && Started(st, r)
    case _ => true
  }

  predicate Started(st: Store, r: Id) {
    r in st.work.runs && st.work.runs[r].status != Queued
  }

  function Step(st: Store, op: Op, s: Setting): Store {
    match op
    case CreateWorkOp(input) => Worked(st, CreateWork(st.work, input, s.directory, s.now)).store
    case CreateDueRunOp(schedule, actor) => Worked(st, CreateDueRun(st.work, schedule, actor, s.directory, s.now)).store
    case RetryRunOp(r, actor, assignee) => Worked(st, RetryRun(st.work, r, actor, assignee, s.directory, s.now)).store
    case ReviseTaskOp(input) => Worked(st, ReviseTask(st.work, input, s.now)).store
    case MoveScheduleOp(schedule, move, reason) =>
      Worked(st, MoveSchedule(st.work, schedule, move, reason, s.now)).store
    case CancelTaskOp(t, actor, reason) => CancelWorkTask(st, t, actor, reason, s.now).store
    case CancelRunOp(r, actor, reason, summary) => CancelWorkRun(st, r, actor, reason, summary, s.now).store
    case ArchiveTaskOp(t, actor, reason) => Worked(st, ArchiveTask(st.work, t, actor, reason, s.now)).store
    case RestoreTaskOp(t, actor) => Worked(st, RestoreTask(st.work, t, actor, s.now)).store
    case DispatchOp(createdBy) => Dispatch(st, createdBy, s).store
    case RetryDispatchOp(r, actor) => RetryDispatch(st, r, actor, s).store
    case ExpireLeasesOp => ExpireLeases(st, s.now)
    case MoveRunOp(input) => Worked(st, MoveRun(st.work, input, s.now)).store
    case BlockRunOp(r, actor, summary, reason, channel) => BlockRun(st, r, actor, summary, reason, channel, s.now).store
    case RemarkOp(r, actor, remark, text) =>
      Worked(st, RecordEvent(st.work, r, actor, RemarkName(remark), text, s.now)).store
    case SettleRequestOp(r) => SettleRequest(st, r, s.now)
  }

  datatype Turn = Turn(op: Op, setting: Setting)

  /** The state after a sequence of operations. */
  function After(st: Store, turns: seq<Turn>): Store
    decreases |turns|
  {
    if turns == [] then st else After(Step(st, turns[0].op, turns[0].setting), turns[1..])
  }

  predicate AllProper(st: Store, turns: seq<Turn>)
    decreases |turns|
  {
    turns == [] || (Proper(st, turns[0].op) && AllProper(Step(st, turns[0].op, turns[0].setting), turns[1..]))
  }
}
