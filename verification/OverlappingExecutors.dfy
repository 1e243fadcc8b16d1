/** Blocking a run, piece by piece: between the move, the opening of the channel and the giving up, anybody
    may do anything proper, a second executor of the same run included. */
module OverlappingExecutors {
  import opened Prelude
  import opened WorkDomain
  import opened WorkOperations
  import opened WorkInvariants
  import opened Company
  import opened CompanyInvariants
  import opened CompanyKept
  import opened OneShotsKept
  import opened BooksKept

  /** One piece of somebody's work: a whole operation, or one of the three parts of blocking a run. */
  datatype Piece =
    | Whole(op: Op, setting: Setting)
    | Blocks(run: Id, actor: string, summary: Option<string>, reason: Option<string>, now: Time)
    | Opens(run: Id, channel: Channel, now: Time)
    | GivesUp(run: Id, actor: string, failure: string, now: Time)

  /** The company, and the blocked runs whose channel is still to be opened or given up. */
  datatype Overlap = Overlap(store: Store, unopened: set<Id>)

  predicate ProperPiece(st: Store, piece: Piece) {
    match piece
    case Whole(op, _) => Proper(st, op)
    case Blocks(r, actor, _, _, _) => Normalized(Some(actor)).Some? && Started(st, r)
    case Opens(_, _, _) => true
    case GivesUp(r, actor, _, _) => Normalized(Some(actor)).Some? && Started(st, r)
  }

  function Do(o: Overlap, piece: Piece): Overlap {
    match piece
    case Whole(op, s) => o.(store := Step(o.store, op, s))
    case Blocks(r, actor, summary, reason, now) =>
      var moved := MoveRun(o.store.work, MoveInput(r, actor, Blocked, summary, reason, None), now);
      Overlap(o.store.(work := moved.work), if moved.result.Ok? then o.unopened + {r} else o.unopened)
    case Opens(r, channel, now) =>
      var opening := OpenRecovery(o.store, r, channel, now);
      Overlap(opening.store, if opening.failure.None? then o.unopened - {r} else o.unopened)
    case GivesUp(r, actor, failure, now) =>
      Overlap(FailBlocked(o.store, r, actor, failure, now).store, o.unopened - {r})
  }

  function AfterPieces(o: Overlap, pieces: seq<Piece>): Overlap
    decreases |pieces|
  {
    if pieces == [] then o else AfterPieces(Do(o, pieces[0]), pieces[1..])
  }

  predicate ProperPieces(o: Overlap, pieces: seq<Piece>)
    decreases |pieces|
  {
    pieces == [] || (ProperPiece(o.store, pieces[0]) && ProperPieces(Do(o, pieces[0]), pieces[1..]))
  }

  // ---------------------------------------------------------------- one piece

  lemma BlockingPieceKeepsCompany(o: Overlap, piece: Piece)
    requires piece.Blocks? && InvExcept(o.store, o.unopened) && ProperPiece(o.store, piece)
    ensures InvExcept(Do(o, piece).store, Do(o, piece).unopened)
  {
    hide InvExcept, MoveRun, NonBlank;
    var input := MoveInput(piece.run, piece.actor, Blocked, piece.summary, piece.reason, None);
    if MoveRun(o.store.work, input, piece.now).result.Ok? {
      MoreExceptions(o.store, o.unopened, {piece.run});
      MoveRunKeepsCompany(o.store, input, Setting({}, {}, piece.now, 0), o.unopened + {piece.run});
    } else {
      BooksOfCompany(o.store, o.unopened);
      FailedMoveChangesNothing(o.store.work, input, piece.now);
    }
  }

  lemma OpeningPieceKeepsCompany(o: Overlap, piece: Piece)
    requires piece.Opens? && InvExcept(o.store, o.unopened)
    ensures InvExcept(Do(o, piece).store, Do(o, piece).unopened)
  {
    hide InvExcept, OpenRecovery;
    var rest := o.unopened - {piece.run};
    FewerOpened(o.store, o.unopened, {piece.run});
    OpenRecoveryKeepsCompany(o.store, piece.run, piece.channel, piece.now, rest);
    OpenRecoveryKeepsUnopened(o.store, piece.run, piece.channel, piece.now, o.unopened);
  }

  lemma FewerOpened(st: Store, except: set<Id>, ids: set<Id>)
    requires InvExcept(st, except)
    ensures InvExcept(st, (except - ids) + ids)
  {
    MoreExceptions(st, except, ids);
    assert (except - ids) + ids == except + ids;
  }

  /** A failed opening reports it, so it leaves a run blocked only while somebody has still to give it up. */
  lemma OpenRecoveryKeepsUnopened(st: Store, r: Id, channel: Channel, now: Time, except: set<Id>)
    requires InvExcept(st, except)
    ensures InvExcept(OpenRecovery(st, r, channel, now).store, except)
  {
    hide InvExcept, OpenRecovery;
    if r in except {
      assert except + {r} == except && (except - {r}) + {r} == except;
      OpenRecoveryKeepsCompany(st, r, channel, now, except - {r});
    } else {
      MoreExceptions(st, except, {r});
      OpenRecoveryKeepsCompany(st, r, channel, now, except);
      OpenedOrUnchanged(st, r, channel, now, except);
    }
  }

  lemma OpenedOrUnchanged(st: Store, r: Id, channel: Channel, now: Time, except: set<Id>)
    requires InvExcept(st, except) && InvExcept(OpenRecovery(st, r, channel, now).store, except + {r})
    ensures InvExcept(OpenRecovery(st, r, channel, now).store, except)
  {
    hide BooksOk, LeasesOk, RequestsOk;
    var st' := OpenRecovery(st, r, channel, now).store;
    assert st'.work.runs == st.work.runs;
    assert forall q :: HasOpenRequest(st, q) ==> HasOpenRequest(st', q);
  }

  /** Giving up ends the run, even when a second executor has resumed it in the meantime. */
  lemma GivingUpEndsTheRun(st: Store, r: Id, actor: string, failure: string, now: Time)
    requires BooksOk(st.work) && NonBlank(actor) && Started(st, r)
    ensures var st' := FailBlocked(st, r, actor, failure, now).store;
            && r in st'.work.runs && IsTerminal(st'.work.runs[r].status)
            && st'.work.runs[r].status == if IsTerminal(st.work.runs[r].status) then st.work.runs[r].status else Failed
  {
    hide BooksOk, MoveRun, NonBlank;
    var input := GivingUp(r, actor, failure);
    FailureReasonIsText(failure);
    FailingIsAllowed(st.work, input, now);
    if MoveRun(st.work, input, now).result.Ok? {
      MoveRunMoves(st.work, input, now);
    } else {
      FailedMoveChangesNothing(st.work, input, now);
    }
  }

  lemma FailingIsAllowed(w: Tables, input: MoveInput, now: Time)
    requires input.run in w.runs && w.runs[input.run].status != Queued && input.status == Failed
    requires NonBlank(input.actor) && input.reason.Some? && NonBlank(input.reason.value)
    ensures MoveRun(w, input, now).result.Ok? <==> !IsTerminal(w.runs[input.run].status)
  {
    hide SettleTask;
  }

  lemma GivingUpKeepsCompany(o: Overlap, piece: Piece)
    requires piece.GivesUp? && InvExcept(o.store, o.unopened) && ProperPiece(o.store, piece)
    ensures InvExcept(Do(o, piece).store, Do(o, piece).unopened)
  {
    hide InvExcept, MoveRun, NonBlank, BooksOk;
    var st := o.store;
    BooksOfCompany(st, o.unopened);
    GivingUpEndsTheRun(st, piece.run, piece.actor, piece.failure, piece.now);
    FewerOpened(st, o.unopened, {piece.run});
    var input := GivingUp(piece.run, piece.actor, piece.failure);
    var rest := o.unopened - {piece.run};
    MoveRunKeepsCompany(st, input, Setting({}, {}, piece.now, 0), rest + {piece.run});
    NoLongerBlocked(st.(work := MoveRun(st.work, input, piece.now).work), rest, {piece.run});
  }

  // ---------------------------------------------------------------- every interleaving

  /** However executors overlap - two of the same run included - every promise holds after every piece, but
      that blocked runs are reachable only once their channel is opened. */
  lemma {:induction false} EveryInterleavingIsInOrder(o: Overlap, pieces: seq<Piece>)
    requires InvExcept(o.store, o.unopened) && ProperPieces(o, pieces)
    ensures var o' := AfterPieces(o, pieces);
            && InvExcept(o'.store, o'.unopened)
            && (o'.unopened == {} ==> Inv(o'.store))
    decreases |pieces|
  {
    hide InvExcept, Do, ProperPiece;
    if pieces != [] {
      PieceKeepsCompany(o, pieces[0]);
      EveryInterleavingIsInOrder(Do(o, pieces[0]), pieces[1..]);
    }
  }

  lemma PieceKeepsCompany(o: Overlap, piece: Piece)
    requires InvExcept(o.store, o.unopened) && ProperPiece(o.store, piece)
    ensures InvExcept(Do(o, piece).store, Do(o, piece).unopened)
  {
    hide InvExcept, Step, Proper, MoveRun, OpenRecovery, FailBlocked, NonBlank;
    match piece
    case Whole(op, s) => StepKeepsCompany(o.store, op, s, o.unopened);
    case Blocks(_, _, _, _, _) => BlockingPieceKeepsCompany(o, piece);
    case Opens(_, _, _) => OpeningPieceKeepsCompany(o, piece);
    case GivesUp(_, _, _, _) => GivingUpKeepsCompany(o, piece);
  }

  /** Uninterrupted, the pieces are the operation. */
  lemma PiecesAreTheOperation(o: Overlap, r: Id, actor: string, summary: Option<string>, reason: Option<string>,
                              channel: Channel, s: Setting)
    ensures var blocks := Blocks(r, actor, summary, reason, s.now);
            var blocked := Do(o, blocks);
            var asked := Do(blocked, Opens(r, channel, s.now));
            var failure := OpenRecovery(blocked.store, r, channel, s.now).failure;
            var after := Step(o.store, BlockRunOp(r, actor, summary, reason, channel), s);
            if MoveRun(o.store.work, MoveInput(r, actor, Blocked, summary, reason, None), s.now).result.Err? then
              blocked == Overlap(after, o.unopened)
            else if failure.None? then asked == Overlap(after, o.unopened - {r})
            else Do(asked, GivesUp(r, actor, failure.value, s.now)) == Overlap(after, o.unopened - {r})
  {
    hide MoveRun, OpenRecovery, FailBlocked;
    assert o.unopened + {r} - {r} == o.unopened - {r};
  }

  // ---------------------------------------------------------------- what the overlap can cost

  predicate AskedByAnother(w: Tables, r: Id)
    requires r in w.runs
  {
    && w.runs[r].task in w.tasks
    && var origin := w.tasks[w.runs[r].task].origin;
       OrElse(origin.requester, Some(origin.createdBy)).value != w.runs[r].assignee
  }

  lemma BlockingPieceBlocks(st: Store, r: Id, actor: string, reason: string, now: Time)
    requires r in st.work.runs && st.work.runs[r].status == InProgress && NonBlank(actor) && NonBlank(reason)
    requires !HasOpenRequest(st, r) && (r in st.requests || AskedByAnother(st.work, r))
    ensures var o := Do(Overlap(st, {}), Blocks(r, actor, None, Some(reason), now));
            && r in o.store.work.runs && o.store.work.runs[r].status == Blocked && o.unopened == {r}
            && o.store.requests == st.requests && (r in st.requests || AskedByAnother(o.store.work, r))
            && o.store.work.tasks == st.work.tasks && o.store.work.runs[r].task == st.work.runs[r].task
  {
    hide Normalized;
  }

  lemma LateFailureStoresTheRequest(st: Store, r: Id, message: string, now: Time)
    requires r in st.work.runs && st.work.runs[r].status == Blocked && st.work.runs[r].task in st.work.tasks
    requires !HasOpenRequest(st, r) && (r in st.requests || AskedByAnother(st.work, r))
    ensures var opening := OpenRecovery(st, r, FailsLate(message), now);
            && opening.failure == Some(message) && HasOpenRequest(opening.store, r)
            && opening.store.work.runs == st.work.runs
  {
  }

  lemma ResumingIsAllowed(w: Tables, input: MoveInput, now: Time)
    requires input.run in w.runs && w.runs[input.run].status == Blocked && input.status == InProgress
    requires NonBlank(input.actor)
    ensures MoveRun(w, input, now).result.Ok?
  {
  }

  lemma ResumedOpenRunIsGivenUp(asked: Overlap, again: MoveInput, message: string, s: Setting)
    requires InvExcept(asked.store, asked.unopened) && asked.unopened <= {again.run}
    requires again.run in asked.store.work.runs && asked.store.work.runs[again.run].status == Blocked
    requires again.status == InProgress && NonBlank(again.actor) && HasOpenRequest(asked.store, again.run)
    ensures var resumed := Do(asked, Whole(MoveRunOp(again), s));
            var end := Do(resumed, GivesUp(again.run, again.actor, message, s.now));
            && ProperPiece(asked.store, Whole(MoveRunOp(again), s)) && HasOpenRequest(resumed.store, again.run)
            && Started(resumed.store, again.run) && resumed.store.work.runs[again.run].status == InProgress
            && again.run in end.store.work.runs && end.store.work.runs[again.run].status == Failed && Inv(end.store)
  {
    hide InvExcept, BooksOk, MoveRun, FailBlocked, NonBlank;
    var r := again.run;
    BooksOfCompany(asked.store, asked.unopened);
    ResumingIsAllowed(asked.store.work, again, s.now);
    MoveRunMoves(asked.store.work, again, s.now);
    PieceKeepsCompany(asked, Whole(MoveRunOp(again), s));
    var resumed := Do(asked, Whole(MoveRunOp(again), s));
    BooksOfCompany(resumed.store, resumed.unopened);
    GivingUpEndsTheRun(resumed.store, r, again.actor, message, s.now);
    PieceKeepsCompany(resumed, GivesUp(r, again.actor, message, s.now));
    assert resumed.unopened - {r} == {};
  }

  /** A channel that fails once its request is stored: the requester's answer resumes the run, and the first
      executor, giving up, fails it under the second one. */
  lemma AResumedRunIsGivenUp(st: Store, r: Id, actor: string, reason: string, message: string, s: Setting)
    requires Inv(st) && r in st.work.runs && st.work.runs[r].status == InProgress && NonBlank(actor) && NonBlank(reason)
    requires !HasOpenRequest(st, r) && (r in st.requests || AskedByAnother(st.work, r))
    ensures var resume := Whole(MoveRunOp(MoveInput(r, actor, InProgress, None, None, None)), s);
            var blocked := Do(Overlap(st, {}), Blocks(r, actor, None, Some(reason), s.now));
            var asked := Do(blocked, Opens(r, FailsLate(message), s.now));
            var resumed := Do(asked, resume);
            var end := Do(resumed, GivesUp(r, actor, message, s.now));
            && OpenRecovery(blocked.store, r, FailsLate(message), s.now).failure == Some(message)
            && ProperPiece(asked.store, resume) && HasOpenRequest(resumed.store, r)
            && Started(resumed.store, r) && resumed.store.work.runs[r].status == InProgress
            && r in end.store.work.runs && end.store.work.runs[r].status == Failed && Inv(end.store)
  {
    hide InvExcept, BooksOk, MoveRun, OpenRecovery, FailBlocked, NonBlank, AskedByAnother;
    BooksOfCompany(st, {});
    RunsHaveTasks(st.work);
    var o, again := Overlap(st, {}), MoveInput(r, actor, InProgress, None, None, None);
    var blocks, opens := Blocks(r, actor, None, Some(reason), s.now), Opens(r, FailsLate(message), s.now);
    var blocked := Do(o, blocks);
    BlockingPieceBlocks(st, r, actor, reason, s.now);
    PieceKeepsCompany(o, blocks);
    var asked := Do(blocked, opens);
    LateFailureStoresTheRequest(blocked.store, r, message, s.now);
    PieceKeepsCompany(blocked, opens);
    BooksOfCompany(asked.store, asked.unopened);
    ResumedOpenRunIsGivenUp(asked, again, message, s);
  }
}
