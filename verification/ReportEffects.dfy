/** What a turn's report does to its run, in terms of the report: the texts that are kept, and what is logged. */
module ReportEffects {
  import opened Prelude
  import opened WorkDomain
  import opened WorkOperations
  import opened WorkInvariants
  import opened WorkEffects
  import opened Company
  import opened CompanyInvariants
  import opened CompanyKept
  import opened CompanyTheorems
  import opened CompanyEffects
  import opened FinishWorkTurn

  // ---------------------------------------------------------------- texts

  lemma TextWithEndsIsKept(text: string)
    requires text != "" && !IsSpace(text[0]) && !IsSpace(text[|text| - 1])
    ensures Normalized(Some(text)) == Some(text) && NonBlank(text)
  {
    assert TrimStart(text) == text && TrimEnd(text) == text;
  }

  lemma TrimmedHasEnds(text: string)
    requires IsTrimmed(text)
    ensures !IsSpace(text[0]) && !IsSpace(text[|text| - 1])
  {
    TrimStartKeeps(text);
    TrimEndKeeps(TrimStart(text));
  }

  /** Joining puts one line feed between neighbours and nothing else anywhere. */
  lemma {:induction false} JoiningMeans(a: seq<string>, b: seq<string>)
    requires a != [] && b != []
    ensures JoinLines(a + b) == JoinLines(a) + "\n" + JoinLines(b)
    ensures |a| == 1 ==> JoinLines(a) == a[0]
  {
    if |a| == 1 {
      assert (a + b)[1..] == b;
    } else {
      JoiningMeans(a[1..], b);
      assert (a + b)[1..] == a[1..] + b;
    }
  }

  lemma {:induction false} JoinedIsKept(texts: seq<string>)
    requires texts != [] && forall i :: 0 <= i < |texts| ==> IsTrimmed(texts[i])
    ensures JoinLines(texts) != "" && !IsSpace(JoinLines(texts)[0])
    ensures !IsSpace(JoinLines(texts)[|JoinLines(texts)| - 1])
  {
    TrimmedHasEnds(texts[0]);
    if |texts| > 1 { JoinedIsKept(texts[1..]); }
  }

  // ---------------------------------------------------------------- reports

  /** The company's operation behind a report. */
  function OpFor(st: Store, report: TurnResult, r: Id, employee: string, channel: Channel): Op
    requires r in st.work.runs
  {
    match report.status
    case IsBlocked =>
      var move := MoveFor(report, r, employee);
      BlockRunOp(r, employee, move.summary, move.reason, channel)
    case StillInProgress =>
      if st.work.runs[r].status == Blocked then MoveRunOp(MoveFor(report, r, employee))
      else RemarkOp(r, employee, Progressed, OrElse(report.summary, Some("WorkRun is still in progress.")).value)
    case _ => MoveRunOp(MoveFor(report, r, employee))
  }

  /** A given text, or the default. */
  function TextOr(text: Option<string>, default: string): string {
    if text.Some? then text.value else default
  }

  /** The first of the new events is the run's, by the employee, of this kind and with this summary. */
  ghost predicate IsLogged(st: Store, st': Store, r: Id, employee: string, kind: string, summary: string, now: Time) {
    && Normalized(Some(employee)).Some? && st.work.next !in st.work.events && st.work.next in st'.work.events
    && st'.work.events[st.work.next] == Event(r, now, Normalized(Some(employee)).value, kind, summary)
    && forall e :: e in st.work.events ==> e in st'.work.events && st'.work.events[e] == st.work.events[e]
  }

  ghost predicate OnlyOneIsLogged(st: Store, st': Store) {
    forall e :: e in st'.work.events && e !in st.work.events ==> e == st.work.next
  }

  /** What the report makes of the run, and what is logged about it; all other runs stay as they are. */
  ghost predicate ReportIsApplied(st: Store, st': Store, report: TurnResult, r: Id, employee: string, channel: Channel,
                                  now: Time)
    requires r in st.work.runs && st.work.runs[r].task in st.work.tasks
    requires (report.status == Complete ==> report.evidence.Some?)
             && (report.status == IsBlocked ==> report.blockerMessage.Some?)
  {
    && r in st'.work.runs && st'.work.runs == st.work.runs[r := st'.work.runs[r]]
    && var a, b := st.work.runs[r], st'.work.runs[r];
       match report.status
       case StillInProgress =>
         && OnlyOneIsLogged(st, st')
         && if a.status == Blocked then
              b.status == InProgress
              && IsLogged(st, st', r, employee, "started",
                          TextOr(report.summary, "WorkRun resumed from blocked state."), now)
            else
              b == a
              && IsLogged(st, st', r, employee, "progress",
                          TextOr(report.summary, "WorkRun is still in progress."), now)
       case Complete =>
         && b.status == Done && b.completedAt == Some(now) && OnlyOneIsLogged(st, st')
         && b.resultSummary == Some(TextOr(report.summary, JoinLines(report.evidence.value)))
         && IsLogged(st, st', r, employee, "completed", TextOr(report.summary, "Moved WorkRun."), now)
       case HasFailed =>
         && b.status == Failed && b.completedAt == Some(now) && OnlyOneIsLogged(st, st')
         && b.failedReason == Some(TextOr(report.summary, "WorkRun failed."))
         && IsLogged(st, st', r, employee, "failed", TextOr(report.summary, "Moved WorkRun."), now)
       case WasCanceled =>
         && b.status == Canceled && b.completedAt == Some(now) && OnlyOneIsLogged(st, st')
         && b.canceledReason == Some(TextOr(report.summary, "WorkRun canceled."))
         && IsLogged(st, st', r, employee, "canceled", TextOr(report.summary, "Moved WorkRun."), now)
       case IsBlocked =>
         && b.blockedReason == report.blockerMessage
         && IsLogged(st, st', r, employee, "blocked", TextOr(report.summary, report.blockerMessage.value), now)
         && if ChannelOpens(st, r, channel) then
              b.status == Blocked && OnlyOneIsLogged(st, st') && HasOpenRequest(st', r)
            else
              b.status == Failed && b.completedAt == Some(now)
              && b.failedReason
                 == Normalized(Some("Blocked recovery channel failed: " + ChannelFailure(st, r, channel)))
  }

  function KindOf(status: RunStatus): string {
    match status
    case Queued => "queued"
    case InProgress => "started"
    case Blocked => "blocked"
    case Done => "completed"
    case Failed => "failed"
    case Canceled => "canceled"
  }

  /** An accepted move changes its run alone and is the only thing that is logged. */
  lemma MovesAreLogged(st: Store, input: MoveInput, now: Time)
    requires Inv(st) && NonBlank(input.actor) && input.run in st.work.runs && MayMove(st.work.runs[input.run], input)
    ensures var st', r := st.(work := MoveRun(st.work, input, now).work), input.run;
            && r in st'.work.runs && st'.work.runs == st.work.runs[r := st'.work.runs[r]]
            && RunHasMoved(st.work.runs[r], st'.work.runs[r], input, now) && OnlyOneIsLogged(st, st')
            && IsLogged(st, st', r, input.actor, KindOf(input.status),
                        if Normalized(input.summary).Some? then Normalized(input.summary).value else "Moved WorkRun.",
                        now)
  {
    hide InvExcept, BooksOk, MoveRun, NonBlank, MayMove, Normalized, EndsWork, TaskHasSettled, ScheduleHasSettled;
    BooksOfCompany(st, {});
    MoveRunIsAcceptedExactly(st.work, input, now);
    MoveRunMeans(st.work, input, now);
  }

  lemma MoveReportMeans(st: Store, report: TurnResult, r: Id, employee: string, channel: Channel, now: Time)
    requires Inv(st) && NonBlank(employee) && WellFormed(report) && report.status != IsBlocked
    requires r in st.work.runs && st.work.runs[r].task in st.work.tasks
    requires st.work.runs[r].status == Blocked
             || (st.work.runs[r].status == InProgress && report.status != StillInProgress)
    ensures ReportIsApplied(st, st.(work := MoveRun(st.work, MoveFor(report, r, employee), now).work), report, r,
                            employee, channel, now)
  {
    hide InvExcept, MoveRun, NonBlank, Normalized, IsTrimmed, JoinLines, OnlyOneIsLogged, IsLogged;
    ReportTextsAreKept(report);
    MovesAreLogged(st, MoveFor(report, r, employee), now);
  }

  /** All texts of a report are kept as they are, and so are the texts that stand in for them. */
  lemma ReportTextsAreKept(report: TurnResult)
    requires WellFormed(report)
    ensures report.summary.Some? ==> Normalized(report.summary) == report.summary
    ensures report.blockerMessage.Some? ==> Normalized(report.blockerMessage) == report.blockerMessage
    ensures report.evidence.Some? ==>
              Normalized(Some(JoinLines(report.evidence.value))) == Some(JoinLines(report.evidence.value))
    ensures forall text :: text in {"WorkRun resumed from blocked state.", "WorkRun is still in progress.",
                                    "WorkRun failed.", "WorkRun canceled.", "progress"} ==>
                             Normalized(Some(text)) == Some(text) && NonBlank(text)
    ensures Normalized(None).None?
  {
    if report.summary.Some? { TrimmedIsNormalized(report.summary.value); }
    if report.blockerMessage.Some? { TrimmedIsNormalized(report.blockerMessage.value); }
    if report.evidence.Some? {
      JoinedIsKept(report.evidence.value);
      TextWithEndsIsKept(JoinLines(report.evidence.value));
    }
    TextWithEndsIsKept("WorkRun resumed from blocked state.");
    TextWithEndsIsKept("WorkRun is still in progress.");
    TextWithEndsIsKept("WorkRun failed.");
    TextWithEndsIsKept("WorkRun canceled.");
    TextWithEndsIsKept("progress");
  }

  lemma ProgressReportMeans(st: Store, report: TurnResult, r: Id, employee: string, channel: Channel, now: Time)
    requires Inv(st) && NonBlank(employee) && WellFormed(report) && report.status == StillInProgress
    requires r in st.work.runs && st.work.runs[r].task in st.work.tasks && st.work.runs[r].status == InProgress
    ensures var text := OrElse(report.summary, Some("WorkRun is still in progress.")).value;
            ReportIsApplied(st, st.(work := RecordEvent(st.work, r, employee, RemarkName(Progressed), text, now).work),
                            report, r, employee, channel, now)
  {
    hide InvExcept, BooksOk, RecordEvent, NonBlank, Normalized, IsTrimmed, JoinLines;
    BooksOfCompany(st, {});
    EventsAreFresh(st.work);
    ReportTextsAreKept(report);
    var text := OrElse(report.summary, Some("WorkRun is still in progress.")).value;
    assert NonBlank(text) && RemarkName(Progressed) == "progress";
    RecordEventMeans(st.work, r, employee, RemarkName(Progressed), text, now);
    assert st.work.runs == st.work.runs[r := st.work.runs[r]];
  }

  lemma BlockReportMeans(st: Store, report: TurnResult, r: Id, employee: string, channel: Channel, now: Time)
    requires Inv(st) && NonBlank(employee) && WellFormed(report) && report.status == IsBlocked
    requires r in st.work.runs && st.work.runs[r].status in {InProgress, Blocked}
    requires st.work.runs[r].task in st.work.tasks
    ensures var blocked := BlockRun(st, r, employee, OrElse(report.summary, report.blockerMessage),
                                    report.blockerMessage, channel, now);
            ReportIsApplied(st, blocked.store, report, r, employee, channel, now)
  {
    hide InvExcept, BooksOk, BlockRun, NonBlank, Normalized, IsTrimmed, JoinLines, HasOpenRequest, ChannelOpens;
    hide ChannelFailure;
    ReportTextsAreKept(report);
    BlockRunMeans(st, r, employee, OrElse(report.summary, report.blockerMessage), report.blockerMessage.value, channel,
                  Setting({}, {}, now, 0));
  }

  /** Whatever a turn has reported of a run in progress or blocked is what its run and its log say. */
  lemma ReportsMean(st: Store, report: TurnResult, r: Id, employee: string, channel: Channel, now: Time)
    requires Inv(st) && NonBlank(employee) && WellFormed(report)
    requires r in st.work.runs && st.work.runs[r].status in {InProgress, Blocked}
    requires st.work.runs[r].task in st.work.tasks
    ensures ReportIsApplied(st, Step(st, OpFor(st, report, r, employee, channel), Setting({}, {}, now, 0)), report, r,
                            employee, channel, now)
  {
    hide InvExcept, MoveRun, RecordEvent, BlockRun, NonBlank, WellFormed, ReportIsApplied, RemarkName;
    match report.status
    case IsBlocked => BlockReportMeans(st, report, r, employee, channel, now);
    case StillInProgress =>
      if st.work.runs[r].status == Blocked {
        MoveReportMeans(st, report, r, employee, channel, now);
      } else {
        ProgressReportMeans(st, report, r, employee, channel, now);
      }
    case _ => MoveReportMeans(st, report, r, employee, channel, now);
  }

  // ---------------------------------------------------------------- errors

  /** The run has failed for the error's message, which its log quotes; all other runs stay as they are. */
  ghost predicate ErrorIsKept(st: Store, st': Store, r: Id, employee: string, message: string, now: Time)
    requires r in st.work.runs
  {
    && r in st'.work.runs && st'.work.runs == st.work.runs[r := st'.work.runs[r]]
    && st'.work.runs[r].status == Failed && st'.work.runs[r].completedAt == Some(now)
    && st'.work.runs[r].failedReason == Normalized(Some(message))
    && Normalized(Some("WorkRun execution failed: " + message)).Some? && OnlyOneIsLogged(st, st')
    && IsLogged(st, st', r, employee, "failed", Normalized(Some("WorkRun execution failed: " + message)).value, now)
  }

  /** The move that fails a run for an error. */
  function ErrorInput(r: Id, employee: string, message: string): MoveInput {
    MoveInput(r, employee, Failed, Some("WorkRun execution failed: " + message), Some(message), None)
  }

  lemma ErrorsMean(st: Store, r: Id, employee: string, message: string, now: Time)
    requires Inv(st) && NonBlank(employee) && NonBlank(message)
    requires r in st.work.runs && st.work.runs[r].status == InProgress
    ensures ErrorIsKept(st, st.(work := MoveRun(st.work, ErrorInput(r, employee, message), now).work), r, employee,
                        message, now)
  {
    hide InvExcept, MoveRun, NonBlank, Normalized, OnlyOneIsLogged, IsLogged;
    QuotingIsText(message);
    MovesAreLogged(st, ErrorInput(r, employee, message), now);
  }

  lemma QuotingIsText(message: string)
    ensures NonBlank("WorkRun execution failed: " + message)
  {
    assert !IsSpace(("WorkRun execution failed: " + message)[0]);
  }
}
