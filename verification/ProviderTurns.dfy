/** What the provider's turns come to: the texts by which a turn that forgot to report is recognized, the
    turns that an execution takes, and the run's end as its last turn has it. */
module ProviderTurns {
  import opened Prelude
  import opened WorkDomain
  import opened WorkOperations
  import opened FinishWorkTurn

  // ---------------------------------------------------------------- messages

  /** A text that begins with a word. */
  function Spoken(word: string, rest: string): (text: string)
    requires word != "" && !IsSpace(word[0])
    ensures NonBlank(text)
  {
    assert (word + rest)[0] == word[0];
    word + rest
  }

  /** The message of the error that WorkService throws. */
  function ErrorText(error: Error): (text: string)
    ensures NonBlank(text)
  {
    match error
    case NotFound => Spoken("WorkRun", " not found.")
    case MoveNotAllowed => Spoken("WorkRun", " cannot move.")
    case ReasonRequired => Spoken("Moving", " WorkRun requires a reason.")
    case EvidenceRequired => Spoken("Moving", " WorkRun to done requires evidence.")
    case TextRequired => Spoken("actorMemberId", " is required.")
    case _ => Spoken("WorkService", " refused the operation.")
  }

  function MissingCall(): string {
    "finish_work_turn was not called"
  }

  /** What a parse error is about, and what it says of it. */
  function Subject(error: ParseError): string {
    if error.NotCalled? || error.CalledMoreThanOnce? then "WorkRun" else "finish_work_turn"
  }

  function Complaint(error: ParseError): string {
    match error
    case NotCalled => " final output requires finish_work_turn; " + (MissingCall() + ".")
    case CalledMoreThanOnce => " final output requires" + " finish_work_turn to be called exactly once."
    case StatusInvalid => " status is invalid."
    case EvidenceMissing => " status complete requires evidence."
    case BlockerMissing => " status blocked requires blockerMessage."
  }

  function ParseErrorText(error: ParseError): (text: string)
    ensures NonBlank(text)
  {
    Spoken(Subject(error), Complaint(error))
  }

  /** The executor's own texts. */
  datatype Notice = RepairRequested | AutoContinuing | BudgetExhausted | BudgetSummary | NotStable | NotStableSummary

  function NoticeText(notice: Notice): (text: string)
    ensures NonBlank(text)
  {
    match notice
    case RepairRequested => Spoken("Runtime", " requested one repair turn because finish_work_turn was missing.")
    case AutoContinuing => Spoken("Runtime", " auto-continued WorkRun execution.")
    case BudgetExhausted => Spoken("Runtime", " auto-continuation budget exhausted.")
    case BudgetSummary => Spoken("WorkRun", " blocked because the runtime auto-continuation budget was exhausted.")
    case NotStable => Spoken("Recovery", " continuation ended before the WorkRun reached a stable state.")
    case NotStableSummary =>
      Spoken("WorkRun", " remains blocked because recovery did not complete or reach another terminal state.")
  }

  /** The test by which the executor decides that a turn only forgot to report. */
  predicate MentionsMissingCall(message: string) {
    exists i :: 0 <= i <= |message| && MissingCall() <= message[i..]
  }

  /** A word in the text begins with a w. */
  predicate HasWordInW(text: string) {
    exists i :: 0 < i < |text| && text[i] == 'w' && text[i - 1] == ' '
  }

  lemma MissingCallHasAWord()
    ensures |MissingCall()| > 17 && MissingCall()[16] == ' ' && MissingCall()[17] == 'w'
  {
  }

  lemma MentioningTakesAWord(text: string)
    requires MentionsMissingCall(text)
    ensures HasWordInW(text)
  {
    hide MissingCall;
    var i :| 0 <= i <= |text| && MissingCall() <= text[i..];
    MissingCallHasAWord();
    assert text[i..][17] == 'w' && text[i..][16] == ' ';
  }

  lemma WordsOfParts(a: string, b: string)
    requires b != "" && b[0] != 'w' && !HasWordInW(a) && !HasWordInW(b)
    ensures !HasWordInW(a + b)
  {
    forall i | 0 < i < |a + b| ensures !((a + b)[i] == 'w' && (a + b)[i - 1] == ' ') {
      if i > |a| { assert (a + b)[i] == b[i - |a|] && (a + b)[i - 1] == b[i - |a| - 1]; }
    }
  }

  lemma CallComplaintsHaveNoWordInW()
    ensures !HasWordInW(Complaint(CalledMoreThanOnce)) && !HasWordInW(Complaint(StatusInvalid))
  {
    WordsOfParts(" final output requires", " finish_work_turn to be called exactly once.");
  }

  lemma TextComplaintsHaveNoWordInW()
    ensures !HasWordInW(Complaint(EvidenceMissing)) && !HasWordInW(Complaint(BlockerMissing))
  {
  }

  lemma SubjectsHaveNoWordInW(error: ParseError)
    ensures !HasWordInW(Subject(error)) && Complaint(error) != "" && Complaint(error)[0] == ' '
  {
    assert " final output requires finish_work_turn; "[0] == " final output requires"[0] == ' ';
  }

  lemma OtherErrorsMentionNothing(error: ParseError)
    requires error != NotCalled
    ensures !MentionsMissingCall(ParseErrorText(error))
  {
    hide MentionsMissingCall, HasWordInW, Subject, Complaint;
    SubjectsHaveNoWordInW(error);
    CallComplaintsHaveNoWordInW();
    TextComplaintsHaveNoWordInW();
    WordsOfParts(Subject(error), Complaint(error));
    if MentionsMissingCall(ParseErrorText(error)) { MentioningTakesAWord(ParseErrorText(error)); }
  }

  lemma MissingCallIsMentioned()
    ensures MentionsMissingCall(ParseErrorText(NotCalled))
  {
    var text, before := ParseErrorText(NotCalled), "WorkRun" + " final output requires finish_work_turn; ";
    assert text == before + (MissingCall() + ".");
    assert text[|before|..] == MissingCall() + ".";
  }

  // ---------------------------------------------------------------- turns

  /** One call of the provider: it throws, or replies after emitting process events. */
  datatype Response = Threw(message: string) | Replied(reply: string, events: seq<TurnEvent>)

  type Provider = nat -> Response

  /** What one call comes to: an error, no proper report, or a report. */
  datatype Verdict = Throws(message: string) | Misreports(error: ParseError) | Reports(report: TurnResult)

  function VerdictOf(response: Response): Verdict {
    match response
    case Threw(message) => Throws(message)
    case Replied(_, events) =>
      match Parse(events)
      case Ok(report) => Reports(report)
      case Err(error) => Misreports(error)
  }

  function TurnAt(provider: Provider, k: nat): Verdict {
    VerdictOf(provider(k))
  }

  predicate Progresses(provider: Provider, k: nat) {
    TurnAt(provider, k).Reports? && TurnAt(provider, k).report.status == StillInProgress
  }

  /** The call in which the first turn ends, if it begins with the n-th: a missing report gets one repair. */
  function FirstEnd(provider: Provider, n: nat): nat {
    if TurnAt(provider, n) == Misreports(NotCalled) then n + 1 else n
  }

  /** The first call from a on that does not report progress, or b. */
  function StopsAt(provider: Provider, a: nat, b: nat): (j: nat)
    requires a <= b
    ensures a <= j <= b && (forall k :: a <= k < j ==> Progresses(provider, k)) && (j < b ==> !Progresses(provider, j))
    decreases b - a
  {
    if a == b || !Progresses(provider, a) then a else StopsAt(provider, a + 1, b)
  }

  /** The last of at most b - a further calls from a on: turns go on for as long as they report progress. */
  function ContinuationEnd(provider: Provider, a: nat, b: nat): nat
    requires a < b
  {
    var j := StopsAt(provider, a, b);
    if j == b then b - 1 else j
  }

  /** The last call of an execution that begins with the n-th. */
  function LastCall(provider: Provider, maxTurns: int, n: nat): nat {
    var f := FirstEnd(provider, n);
    if maxTurns <= 1 || !Progresses(provider, f) then f else ContinuationEnd(provider, f + 1, f + maxTurns)
  }

  lemma StopsOnlyThere(provider: Provider, a: nat, b: nat, j: nat)
    requires a <= j <= b && (forall k :: a <= k < j ==> Progresses(provider, k)) && (j < b ==> !Progresses(provider, j))
    ensures StopsAt(provider, a, b) == j
  {
  }

  // ---------------------------------------------------------------- where turns leave the run

  /** The status that a report leads to from in progress, when nobody else does anything: as reported, or
      failed where a blocked run got no channel. */
  function StatusOf(status: ResultStatus, reachable: bool): RunStatus {
    match status
    case Complete => Done
    case HasFailed => Failed
    case WasCanceled => Canceled
    case IsBlocked => if reachable then Blocked else Failed
    case StillInProgress => InProgress
  }

  /** A report of progress in the last turn that is granted blocks the run, where the executor sees to it. */
  function LastStatus(report: TurnResult, blocks: bool): ResultStatus {
    if report.status == StillInProgress && blocks then IsBlocked else report.status
  }

  /** The result and the run's status after a turn from the status before it: an error comes out and leaves
      the run alone, a report settles it.  A blocked run that got no channel has failed. */
  predicate WentAs(response: Response, before: RunStatus, blocks: bool, result: Result<string, string>,
                   status: RunStatus) {
    match VerdictOf(response)
    case Throws(message) => result == Err(message) && status == before
    case Misreports(error) => result == Err(ParseErrorText(error)) && status == before
    case Reports(report) =>
      var last := LastStatus(report, blocks);
      && status == StatusOf(last, result.Ok?)
      && (if result.Ok? then result.value == response.reply else last == IsBlocked)
  }

  /** A turn that is not the last one: the run stays in progress exactly if it reports progress, and
      otherwise it ends as a last one would. */
  lemma OneMoreTurn(provider: Provider, k: nat, result: Result<string, string>, status: RunStatus)
    requires WentAs(provider(k), InProgress, false, result, status)
    ensures result.Ok? ==>
              (status == InProgress <==> Progresses(provider, k)) && provider(k).Replied?
              && result.value == provider(k).reply
    ensures result.Err? ==> !Progresses(provider, k)
    ensures !Progresses(provider, k) ==> WentAs(provider(k), InProgress, true, result, status)
  {
    hide Parse, ParseErrorText;
  }

  /** Turns a to c of the loop, of which all but the last have reported progress. */
  ghost predicate Continued(provider: Provider, a: nat, c: nat, reply: string, status: RunStatus) {
    && a <= c && (forall k :: a <= k < c - 1 ==> Progresses(provider, k))
    && if a == c then status == InProgress else WentAs(provider(c - 1), InProgress, false, Ok(reply), status)
  }

  lemma ContinuationBegins(provider: Provider, a: nat, reply: string)
    ensures Continued(provider, a, a, reply, InProgress)
  {
  }

  lemma ContinuesOn(provider: Provider, a: nat, c: nat, reply: string, text: string, status: RunStatus)
    requires Continued(provider, a, c, reply, InProgress) && WentAs(provider(c), InProgress, false, Ok(text), status)
    ensures Continued(provider, a, c + 1, text, status)
  {
    hide WentAs, Progresses;
    if a < c { OneMoreTurn(provider, c - 1, Ok(reply), InProgress); }
  }

  lemma ContinuationStops(provider: Provider, a: nat, b: nat, c: nat, reply: string, status: RunStatus)
    requires Continued(provider, a, c, reply, status) && status != InProgress && c <= b
    ensures a < c && c - 1 == ContinuationEnd(provider, a, b)
            && WentAs(provider(c - 1), InProgress, true, Ok(reply), status)
  {
    hide WentAs, Progresses;
    OneMoreTurn(provider, c - 1, Ok(reply), status);
    StopsOnlyThere(provider, a, b, c - 1);
  }

  lemma ContinuationBreaks(provider: Provider, a: nat, b: nat, c: nat, reply: string, message: string,
                           status: RunStatus)
    requires Continued(provider, a, c, reply, InProgress) && c < b
    requires WentAs(provider(c), InProgress, false, Err(message), status)
    ensures c == ContinuationEnd(provider, a, b) && WentAs(provider(c), InProgress, true, Err(message), status)
  {
    hide WentAs, Progresses;
    if a < c { OneMoreTurn(provider, c - 1, Ok(reply), InProgress); }
    OneMoreTurn(provider, c, Err(message), status);
    StopsOnlyThere(provider, a, b, c);
  }

  lemma ContinuationIsUsedUp(provider: Provider, a: nat, c: nat, reply: string, result: Result<string, string>,
                             status: RunStatus)
    requires Continued(provider, a, c, reply, InProgress) && a < c
    requires status == StatusOf(IsBlocked, result.Ok?) && (result.Ok? ==> result.value == reply)
    ensures c - 1 == ContinuationEnd(provider, a, c) && WentAs(provider(c - 1), InProgress, true, result, status)
  {
    hide Parse;
    OneMoreTurn(provider, c - 1, Ok(reply), InProgress);
    StopsOnlyThere(provider, a, c, c);
  }

  /** How the turns of a started run end, from its n-th call to before its m-th. */
  predicate TurnsWent(provider: Provider, maxTurns: int, n: nat, m: nat, result: Result<string, string>,
                      status: RunStatus) {
    m == LastCall(provider, maxTurns, n) + 1 && WentAs(provider(m - 1), InProgress, maxTurns >= 2, result, status)
  }

  /** How the execution of a queued run ends: as its last turn says, except that an error fails the run -
      unless it has no message to fail it with. */
  ghost predicate ExecutionWent(provider: Provider, maxTurns: int, n: nat, m: nat, outcome: Result<string, string>,
                                status: RunStatus) {
    && m == LastCall(provider, maxTurns, n) + 1
    && match VerdictOf(provider(m - 1))
       case Throws(message) =>
         if NonBlank(message) then outcome == Err(message) && status == Failed
         else outcome == Err(ErrorText(ReasonRequired)) && status == InProgress
       case Misreports(error) => outcome == Err(ParseErrorText(error)) && status == Failed
       case Reports(_) => WentAs(provider(m - 1), InProgress, maxTurns >= 2, outcome, status)
  }

  /** How the recovery of a blocked run ends: as its last turn says, and an error leaves the run where the
      turns before have left it. */
  predicate RecoveryWent(provider: Provider, maxTurns: int, n: nat, m: nat, result: Result<string, string>,
                         status: RunStatus) {
    && m == LastCall(provider, maxTurns, n) + 1
    && WentAs(provider(m - 1), if m - 1 > FirstEnd(provider, n) then InProgress else Blocked, true, result, status)
  }

  lemma TurnErrorsAreNoCancellations(provider: Provider, maxTurns: int, n: nat, m: nat, result: Result<string, string>,
                                     status: RunStatus)
    ensures TurnsWent(provider, maxTurns, n, m, result, status) && result.Err? ==> status in {InProgress, Failed}
  {
    hide Parse;
  }

  lemma RecoveryErrorsAreNoCancellations(provider: Provider, maxTurns: int, n: nat, m: nat, result: Result<string,
                                         string>, status: RunStatus)
    ensures RecoveryWent(provider, maxTurns, n, m, result, status) && result.Err? ==>
              status in {Blocked, InProgress, Failed}
  {
    hide Parse;
  }

  /** From how the turns went to how the execution does, once a run still in progress has been failed. */
  lemma ExecutionFollowsTurns(provider: Provider, maxTurns: int, n: nat, m: nat, turns: Result<string, string>,
                              before: RunStatus,
                              outcome: Result<string, string>, status: RunStatus)
    requires TurnsWent(provider, maxTurns, n, m, turns, before)
    requires turns.Ok? || before != InProgress ==> outcome == turns && status == before
    requires turns.Err? && before == InProgress ==>
               if NonBlank(turns.error) then outcome == turns && status == Failed
               else outcome == Err(ErrorText(ReasonRequired)) && status == InProgress
    ensures ExecutionWent(provider, maxTurns, n, m, outcome, status)
  {
    hide Parse, NonBlank, ErrorText;
  }

  // ---------------------------------------------------------------- runs left in progress

  /** The last turn of an execution throws an error without message, or reports progress with no further
      turn granted. */
  ghost predicate IsAbandoned(provider: Provider, maxTurns: int, n: nat) {
    var k := LastCall(provider, maxTurns, n);
    || (TurnAt(provider, k).Throws? && !NonBlank(TurnAt(provider, k).message))
    || (maxTurns <= 1 && Progresses(provider, k))
  }

  /** Exactly such providers leave a queued run in progress. */
  lemma LeftInProgressExactly(provider: Provider, maxTurns: int, n: nat, m: nat, outcome: Result<string, string>,
                              status: RunStatus)
    requires ExecutionWent(provider, maxTurns, n, m, outcome, status)
    ensures status == InProgress <==> IsAbandoned(provider, maxTurns, n)
  {
    hide Parse, NonBlank;
  }

  /** A recovery whose first turn reports progress, and whose turns report nothing else until one of those
      granted throws or does not report properly. */
  predicate GetsStuck(provider: Provider, maxTurns: int, n: nat) {
    var f := FirstEnd(provider, n);
    && maxTurns >= 2 && Progresses(provider, f)
    && exists j :: f < j < f + maxTurns && !TurnAt(provider, j).Reports? && forall k :: f <= k < j ==>
      Progresses(provider, k)
  }

  /** Exactly such providers leave a recovered run in progress. */
  lemma StuckExactly(provider: Provider, maxTurns: int, n: nat, m: nat, result: Result<string, string>,
                     status: RunStatus)
    requires RecoveryWent(provider, maxTurns, n, m, result, status)
    ensures status == InProgress <==> GetsStuck(provider, maxTurns, n)
    ensures status == InProgress ==> result.Err?
  {
    hide Parse, NonBlank;
    var f := FirstEnd(provider, n);
    if maxTurns >= 2 && Progresses(provider, f) {
      var j := StopsAt(provider, f + 1, f + maxTurns);
      assert forall k :: f <= k < j ==> Progresses(provider, k);
      assert Progresses(provider, j - 1);
      if j < f + maxTurns && !TurnAt(provider, j).Reports? { assert GetsStuck(provider, maxTurns, n); }
      if GetsStuck(provider, maxTurns, n) { StuckStopsThere(provider, maxTurns, n, j); }
    }
  }

  lemma StuckStopsThere(provider: Provider, maxTurns: int, n: nat, j: nat)
    requires GetsStuck(provider, maxTurns, n)
    requires var f := FirstEnd(provider, n); j == StopsAt(provider, f + 1, f + maxTurns)
    ensures j < FirstEnd(provider, n) + maxTurns && !TurnAt(provider, j).Reports?
  {
    hide Parse;
    var f := FirstEnd(provider, n);
    var i :| f < i < f + maxTurns && !TurnAt(provider, i).Reports? && forall k :: f <= k < i ==>
      Progresses(provider, k);
    StopsOnlyThere(provider, f + 1, f + maxTurns, i);
  }

  /** A second omission ends the execution at once: a started run fails, and a recovered one stays blocked. */
  lemma SecondOmissionEnds(provider: Provider, maxTurns: int, n: nat, m: nat, outcome: Result<string, string>,
                           status: RunStatus)
    requires TurnAt(provider, n) == TurnAt(provider, n + 1) == Misreports(NotCalled)
    ensures ExecutionWent(provider, maxTurns, n, m, outcome, status) <==>
              m == n + 2 && outcome == Err(ParseErrorText(NotCalled)) && status == Failed
    ensures RecoveryWent(provider, maxTurns, n, m, outcome, status) <==>
              m == n + 2 && outcome == Err(ParseErrorText(NotCalled)) && status == Blocked
  {
    hide Parse, NonBlank, ParseErrorText;
  }

  /** Where every turn reports progress, all that are granted are taken, and then the run is blocked. */
  lemma OnlyProgressBlocks(provider: Provider, maxTurns: int, n: nat, m: nat, outcome: Result<string, string>,
                           status: RunStatus)
    requires maxTurns >= 2 && forall k :: n <= k < n + maxTurns ==> Progresses(provider, k)
    requires ExecutionWent(provider, maxTurns, n, m, outcome, status) || RecoveryWent(provider, maxTurns, n, m, outcome,
                                                                                      status)
    ensures m == n + maxTurns && status == (if outcome.Ok? then Blocked else Failed)
  {
    hide Parse, NonBlank;
    assert Progresses(provider, n) && Progresses(provider, n + maxTurns - 1);
    StopsOnlyThere(provider, n + 1, n + maxTurns, n + maxTurns);
  }
}
