/** Reading the one finish_work_turn call out of a provider turn. */
module FinishWorkTurn {
  import opened Prelude
  import opened WorkDomain
  import opened WorkOperations

  datatype Json =
    | JsonNull
    | JsonBool(bool)
    | JsonNumber(real)
    | JsonString(text: string)
    | JsonArray(items: seq<Json>)
    | JsonObject(fields: map<string, Json>)

  /** What the parser reads of a process event; a missing argument is an undefined one. */
  datatype TurnEvent = TurnEvent(kind: string, status: Option<string>, toolName: Option<string>,
                                 arguments: Option<Json>)

  datatype ResultStatus = StillInProgress | Complete | IsBlocked | HasFailed | WasCanceled

  datatype TurnResult = TurnResult(
    status: ResultStatus, summary: Option<string>, evidence: Option<seq<string>>, blockerMessage: Option<string>)

  datatype ParseError = NotCalled | CalledMoreThanOnce | StatusInvalid | EvidenceMissing | BlockerMissing

  const FINISH := "finish_work_turn"

  /** A call that counts: the tool's own event, succeeded, with an object of arguments. */
  predicate IsCall(event: TurnEvent, toolName: string) {
    && event.kind == "model_tool_call" && event.toolName == Some(toolName)
    && event.status == Some("succeeded")
    && event.arguments.Some? && event.arguments.value.JsonObject?
  }

  function CallsOf(events: seq<TurnEvent>, toolName: string): seq<map<string, Json>> {
    if events == [] then []
    else
      var before := CallsOf(events[..|events| - 1], toolName);
      var last := events[|events| - 1];
      if IsCall(last, toolName) then before + [last.arguments.value.fields] else before
  }

  method SuccessfulFinalToolArgumentCalls(events: seq<TurnEvent>, toolName: string)
    returns (calls: seq<map<string, Json>>)
    ensures calls == CallsOf(events, toolName)
  {
    calls := [];
    var index := 0;
    while index < |events|
      invariant 0 <= index <= |events|
      invariant calls == CallsOf(events[..index], toolName)
    {
      var event := events[index];
      assert events[..index + 1][..index] == events[..index];
      index := index + 1;
      if event.kind != "model_tool_call" || event.toolName != Some(toolName) {
        continue;
      }
      if event.status != Some("succeeded") {
        continue;
      }
      if event.arguments.Some? && event.arguments.value.JsonObject? {
        calls := calls + [event.arguments.value.fields];
      }
    }
    assert events[..|events|] == events;
  }

  function StatusText(status: ResultStatus): string {
    match status
    case StillInProgress => "in_progress"
    case Complete => "complete"
    case IsBlocked => "blocked"
    case HasFailed => "failed"
    case WasCanceled => "canceled"
  }

  function RequiredStatus(value: Option<Json>): Option<ResultStatus> {
    if value.None? || !value.value.JsonString? then None
    else
      var text := Trim(value.value.text);
      if text == "in_progress" then Some(StillInProgress)
      else if text == "complete" then Some(Complete)
      else if text == "blocked" then Some(IsBlocked)
      else if text == "failed" then Some(HasFailed)
      else if text == "canceled" then Some(WasCanceled)
      else None
  }

  function Field(record: map<string, Json>, name: string): Option<Json> {
    if name in record then Some(record[name]) else None
  }

  function StringField(value: Option<Json>): (r: Option<string>)
    ensures r.Some? ==> NonBlank(r.value)
  {
    if value.Some? && value.value.JsonString? then Normalized(Some(value.value.text)) else None
  }

  /** The non-blank texts of a list, trimmed. */
  function Texts(items: seq<Json>): (texts: seq<string>)
    ensures forall i :: 0 <= i < |texts| ==> NonBlank(texts[i])
  {
    if items == [] then []
    else
      var first := StringField(Some(items[0]));
      if first.Some? then [first.value] + Texts(items[1..]) else Texts(items[1..])
  }

  function StringArray(value: Option<Json>): Option<seq<string>> {
    if value.None? || !value.value.JsonArray? then None
    else
      var texts := Texts(value.value.items);
      if texts == [] then None else Some(texts)
  }

  function Validate(result: TurnResult): Result<TurnResult, ParseError> {
    if result.status == Complete && (result.evidence.None? || result.evidence.value == []) then Err(EvidenceMissing)
    else if result.status == IsBlocked && result.blockerMessage.None? then Err(BlockerMissing)
    else Ok(result)
  }

  function Normalize(record: map<string, Json>): Result<TurnResult, ParseError> {
    match RequiredStatus(Field(record, "status"))
    case None => Err(StatusInvalid)
    case Some(status) =>
      Validate(TurnResult(status, StringField(Field(record, "summary")), StringArray(Field(record, "evidence")),
                          StringField(Field(record, "blockerMessage"))))
  }

  function Parse(events: seq<TurnEvent>): Result<TurnResult, ParseError> {
    var calls := CallsOf(events, FINISH);
    if |calls| == 0 then Err(NotCalled)
    else if |calls| > 1 then Err(CalledMoreThanOnce)
    else Normalize(calls[0])
  }

  method WorkRunResultFromProcessEvents(events: seq<TurnEvent>) returns (result: Result<TurnResult, ParseError>)
    ensures result == Parse(events)
  {
    var calls := SuccessfulFinalToolArgumentCalls(events, FINISH);
    if |calls| == 0 { return Err(NotCalled); }
    if |calls| > 1 { return Err(CalledMoreThanOnce); }
    result := Normalize(calls[0]);
  }

  // ---------------------------------------------------------------- what parsed results are

  predicate IsTrimmed(text: string) {
    text != "" && Trim(text) == text
  }

  /** Texts are trimmed and not empty, and the status has what it needs. */
  predicate WellFormed(result: TurnResult) {
    && (result.summary.Some? ==> IsTrimmed(result.summary.value))
    && (result.blockerMessage.Some? ==> IsTrimmed(result.blockerMessage.value))
    && (result.evidence.Some? ==>
          result.evidence.value != [] && forall i :: 0 <= i < |result.evidence.value| ==>
            IsTrimmed(result.evidence.value[i]))
    && (result.status == Complete ==> result.evidence.Some?)
    && (result.status == IsBlocked ==> result.blockerMessage.Some?)
  }

  lemma NormalizedIsTrimmed(text: string)
    ensures Normalized(Some(text)).Some? ==> IsTrimmed(Normalized(Some(text)).value)
  {
    TrimIsIdempotent(text);
  }

  lemma {:induction false} TextsAreTrimmed(items: seq<Json>)
    ensures forall i :: 0 <= i < |Texts(items)| ==> IsTrimmed(Texts(items)[i])
  {
    if items != [] {
      TextsAreTrimmed(items[1..]);
      if items[0].JsonString? { NormalizedIsTrimmed(items[0].text); }
    }
  }

  lemma StringFieldIsTrimmed(value: Option<Json>)
    ensures StringField(value).Some? ==> IsTrimmed(StringField(value).value)
  {
    if value.Some? && value.value.JsonString? { NormalizedIsTrimmed(value.value.text); }
  }

  lemma ParsedIsWellFormed(events: seq<TurnEvent>)
    requires Parse(events).Ok?
    ensures WellFormed(Parse(events).value)
  {
    var record := CallsOf(events, FINISH)[0];
    StringFieldIsTrimmed(Field(record, "summary"));
    StringFieldIsTrimmed(Field(record, "blockerMessage"));
    if Field(record, "evidence").Some? && Field(record, "evidence").value.JsonArray? {
      TextsAreTrimmed(Field(record, "evidence").value.items);
    }
  }

  /** The text under a name, trimmed, if there is one that is not blank. */
  function TextAt(record: map<string, Json>, name: string): Option<string> {
    if name in record && record[name].JsonString? then Normalized(Some(record[name].text)) else None
  }

  /** The status that a text names, white space around it aside. */
  predicate NamesStatus(text: string, status: ResultStatus) {
    Trim(text) == match status
                  case StillInProgress => "in_progress"
                  case Complete => "complete"
                  case IsBlocked => "blocked"
                  case HasFailed => "failed"
                  case WasCanceled => "canceled"
  }

  predicate HasStatus(record: map<string, Json>, status: ResultStatus) {
    "status" in record && record["status"].JsonString? && NamesStatus(record["status"].text, status)
  }

  predicate HasEvidence(record: map<string, Json>) {
    "evidence" in record && record["evidence"].JsonArray? && Texts(record["evidence"].items) != []
  }

  /** Of a list the texts that are not blank come out, trimmed and in order. */
  lemma {:induction false} TextsMean(a: seq<Json>, b: seq<Json>, item: Json)
    ensures Texts(a + b) == Texts(a) + Texts(b)
    ensures Texts([item]) == (if item.JsonString? && Normalized(Some(item.text)).Some?
                              then [Normalized(Some(item.text)).value] else [])
  {
    assert [item][1..] == [];
    if a == [] {
      assert a + b == b;
    } else {
      TextsMean(a[1..], b, item);
      assert (a + b)[1..] == a[1..] + b;
    }
  }

  /** A turn is accepted exactly with one call that names a status and has what the status needs, and then each
      field of the result is the argument of its name. */
  lemma ParseIsAcceptedExactly(events: seq<TurnEvent>)
    ensures Parse(events).Ok? <==>
              && |CallsOf(events, "finish_work_turn")| == 1
              && var record := CallsOf(events, "finish_work_turn")[0];
                 exists status :: HasStatus(record, status) && (status == Complete ==> HasEvidence(record))
                                  && (status == IsBlocked ==> TextAt(record, "blockerMessage").Some?)
    ensures Parse(events).Ok? ==>
              var record, result := CallsOf(events, "finish_work_turn")[0], Parse(events).value;
              && HasStatus(record, result.status) && result.summary == TextAt(record, "summary")
              && result.blockerMessage == TextAt(record, "blockerMessage")
              && result.evidence == if HasEvidence(record) then Some(Texts(record["evidence"].items)) else None
  {
    hide CallsOf, Texts, Normalized, NamesStatus;
    if |CallsOf(events, FINISH)| == 1 { StatusIsRead(CallsOf(events, FINISH)[0]); }
  }

  lemma StatusIsRead(record: map<string, Json>)
    ensures forall status :: HasStatus(record, status) <==> RequiredStatus(Field(record, "status")) == Some(status)
  {
    assert "in_progress"[0] == 'i' && "complete"[1] == 'o' && "blocked"[0] == 'b' && "failed"[0] == 'f'
           && "canceled"[1] == 'a';
  }

  // ---------------------------------------------------------------- round trip

  function TextField(record: map<string, Json>, name: string, text: Option<string>): map<string, Json> {
    if text.None? then record else record[name := JsonString(text.value)]
  }

  function Items(texts: seq<string>): seq<Json> {
    if texts == [] then [] else [JsonString(texts[0])] + Items(texts[1..])
  }

  /** The arguments with which a provider reports the result. */
  function Arguments(result: TurnResult): map<string, Json> {
    var record := TextField(TextField(map["status" := JsonString(StatusText(result.status))], "summary",
                                      result.summary),
                            "blockerMessage", result.blockerMessage);
    if result.evidence.None? then record else record["evidence" := JsonArray(Items(result.evidence.value))]
  }

  function CallEvent(result: TurnResult): TurnEvent {
    TurnEvent("model_tool_call", Some("succeeded"), Some(FINISH), Some(JsonObject(Arguments(result))))
  }

  lemma TrimmedIsNormalized(text: string)
    requires IsTrimmed(text)
    ensures Normalized(Some(text)) == Some(text)
  {
    TrimIsEmptyIffBlank(text);
  }

  lemma {:induction false} ItemsAreTexts(texts: seq<string>)
    requires forall i :: 0 <= i < |texts| ==> IsTrimmed(texts[i])
    ensures Texts(Items(texts)) == texts
  {
    if texts != [] {
      TrimmedIsNormalized(texts[0]);
      ItemsAreTexts(texts[1..]);
      assert Items(texts)[1..] == Items(texts[1..]);
    }
  }

  lemma StatusTextIsRead(status: ResultStatus)
    ensures RequiredStatus(Some(JsonString(StatusText(status)))) == Some(status)
  {
    var text := StatusText(status);
    assert !IsSpace(text[0]) && !IsSpace(text[|text| - 1]);
    assert Trim(text) == text;
    assert text[..2] == match status
                        case StillInProgress => "in"
                        case Complete => "co"
                        case IsBlocked => "bl"
                        case HasFailed => "fa"
                        case WasCanceled => "ca";
  }

  lemma FieldNamesDiffer()
    ensures "status" != "summary" && "status" != "blockerMessage" && "status" != "evidence"
    ensures "summary" != "blockerMessage" && "summary" != "evidence" && "blockerMessage" != "evidence"
  {
    assert "status"[1] == 't' && "summary"[1] == 'u' && "blockerMessage"[1] == 'l' && "evidence"[1] == 'v';
  }

  /** Reporting a well-formed result and parsing the report gives the result back, whatever other events
      the turn had, as long as no other call counts. */
  lemma ReportsAreReadBack(result: TurnResult, before: seq<TurnEvent>)
    requires WellFormed(result) && CallsOf(before, FINISH) == []
    ensures Parse(before + [CallEvent(result)]) == Ok(result)
  {
    var events := before + [CallEvent(result)];
    assert events[..|events| - 1] == before;
    assert CallsOf(events, FINISH) == [Arguments(result)];
    FieldNamesDiffer();
    StatusTextIsRead(result.status);
    if result.summary.Some? { TrimmedIsNormalized(result.summary.value); }
    if result.blockerMessage.Some? { TrimmedIsNormalized(result.blockerMessage.value); }
    if result.evidence.Some? { ItemsAreTexts(result.evidence.value); }
  }

  // ---------------------------------------------------------------- applying a result

  /** The pieces of evidence as one text. */
  function JoinLines(texts: seq<string>): string {
    if texts == [] then "" else if |texts| == 1 then texts[0] else texts[0] + "\n" + JoinLines(texts[1..])
  }

  /** The move that the executor makes for a result; progress on a run that is not blocked is no move. */
  function MoveFor(result: TurnResult, r: Id, actor: string): (input: MoveInput)
    ensures input.run == r && input.actor == actor
    ensures input.status == (match result.status
                             case StillInProgress => InProgress
                             case Complete => Done
                             case IsBlocked => Blocked
                             case HasFailed => Failed
                             case WasCanceled => Canceled)
  {
    match result.status
    case StillInProgress =>
      MoveInput(r, actor, InProgress, OrElse(result.summary, Some("WorkRun resumed from blocked state.")), None, None)
    case Complete =>
      MoveInput(r, actor, Done, result.summary, None,
                if result.evidence.None? then None else Some(JoinLines(result.evidence.value)))
    case IsBlocked => MoveInput(r, actor, Blocked, OrElse(result.summary, result.blockerMessage), result.blockerMessage,
                                None)
    case HasFailed => MoveInput(r, actor, Failed, result.summary, OrElse(result.summary, Some("WorkRun failed.")), None)
    case WasCanceled => MoveInput(r, actor, Canceled, result.summary, OrElse(result.summary, Some("WorkRun canceled.")),
                                  None)
  }

  lemma JoinedIsNonBlank(texts: seq<string>)
    requires texts != [] && NonBlank(texts[0])
    ensures NonBlank(JoinLines(texts))
  {
    var i :| 0 <= i < |texts[0]| && !IsSpace(texts[0][i]);
    assert JoinLines(texts)[i] == texts[0][i];
  }

  lemma TrimmedIsNonBlank(text: string)
    requires IsTrimmed(text)
    ensures NonBlank(text)
  {
    TrimIsEmptyIffBlank(text);
  }

  lemma DefaultReasonsAreText()
    ensures NonBlank("WorkRun failed.") && NonBlank("WorkRun canceled.")
  {
    assert !IsSpace("WorkRun failed."[0]) && !IsSpace("WorkRun canceled."[0]);
  }

  /** Whatever the parser accepts, moveWorkRun accepts: on a blocked run every result is an allowed move
      with all the texts it needs, and on a run in progress every result but progress. */
  lemma ParsedResultsAlwaysApply(events: seq<TurnEvent>, run: Run, r: Id, actor: string)
    requires Parse(events).Ok?
    requires run.status == Blocked || (run.status == InProgress && Parse(events).value.status != StillInProgress)
    ensures MoveError(run, MoveFor(Parse(events).value, r, actor)).None?
  {
    hide Parse, MoveFor, WellFormed, MoveError;
    ParsedIsWellFormed(events);
    WellFormedResultsApply(Parse(events).value, run, r, actor);
  }

  lemma WellFormedResultsApply(result: TurnResult, run: Run, r: Id, actor: string)
    requires WellFormed(result) && (run.status == Blocked || (run.status == InProgress
                                                              && result.status != StillInProgress))
    ensures MoveError(run, MoveFor(result, r, actor)).None?
  {
    hide JoinLines, IsTrimmed, NonBlank, Normalized;
    DefaultReasonsAreText();
    if result.summary.Some? { TrimmedIsNonBlank(result.summary.value); }
    if result.blockerMessage.Some? { TrimmedIsNonBlank(result.blockerMessage.value); }
    if result.evidence.Some? {
      TrimmedIsNonBlank(result.evidence.value[0]);
      JoinedIsNonBlank(result.evidence.value);
    }
  }
}
