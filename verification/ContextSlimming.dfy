/** Slimming a model context: large tool results are stored and replaced by digests. */
module ContextSlimming {
  import opened CodeUnits
  import opened ContextSummary

  // ---------------------------------------------------------------- the texts of tool results

  function ModelLine(block: Block): Text {
    match block
    case TextBlock(text) => text
    case ImageBlock => Ascii("[image omitted from tool result text estimate]")
    case _ => Ascii("[") + Kind(block) + Ascii(" content omitted from tool result text estimate]")
  }

  function ModelLines(content: seq<Block>): seq<Text> {
    if content == [] then [] else [ModelLine(content[0])] + ModelLines(content[1..])
  }

  function ExtractModelText(content: seq<Block>): Text {
    Join(ModelLines(content), Ascii("\n"))
  }

  /** The length in UTF-8: a pair of surrogates takes four bytes, a lone one the three of its replacement. */
  function Utf8Bytes(text: Text): nat {
    if text == [] then 0
    else if text[0] < 0x80 then 1 + Utf8Bytes(text[1..])
    else if text[0] < 0x800 then 2 + Utf8Bytes(text[1..])
    else if 0xD800 <= text[0] < 0xDC00 && |text| > 1 && 0xDC00 <= text[1] < 0xE000 then 4 + Utf8Bytes(text[2..])
    else 3 + Utf8Bytes(text[1..])
  }

  lemma {:induction false} AtMostThreeBytesEach(text: Text)
    ensures Utf8Bytes(text) <= 3 * |text|
    decreases |text|
  {
    if text != [] {
      AtMostThreeBytesEach(text[1..]);
      if |text| > 1 { AtMostThreeBytesEach(text[2..]); }
    }
  }

  predicate IsHigh(unit: nat) {
    0xD800 <= unit < 0xDC00
  }

  predicate IsLow(unit: nat) {
    0xDC00 <= unit < 0xE000
  }

  /** The bytes of every code unit on its own. */
  function UnitBytes(text: Text): nat {
    if text == [] then 0
    else (if text[0] < 0x80 then 1 else if text[0] < 0x800 then 2 else 3) + UnitBytes(text[1..])
  }

  /** How often a high surrogate meets a low one. */
  function Pairs(text: Text): nat {
    if |text| < 2 then 0 else (if IsHigh(text[0]) && IsLow(text[1]) then 1 else 0) + Pairs(text[1..])
  }

  /** A text takes the bytes of its units, two less for every pair of surrogates. */
  lemma {:induction false} BytesOfUnits(text: Text)
    ensures Utf8Bytes(text) + 2 * Pairs(text) == UnitBytes(text)
    decreases |text|
  {
    if text != [] {
      if |text| > 1 && IsHigh(text[0]) && IsLow(text[1]) {
        BytesOfUnits(text[2..]);
        assert text[1..][1..] == text[2..];
      } else {
        BytesOfUnits(text[1..]);
      }
    }
  }

  datatype Policy = Policy(
    rawBytesThreshold: nat, estimatedTokensThreshold: nat, previewHeadChars: nat, previewTailChars: nat,
      maxDigestChars: nat)

  predicate IsLarge(text: Text, policy: Policy) {
    Utf8Bytes(text) >= policy.rawBytesThreshold || EstimateTokens(text) >= policy.estimatedTokensThreshold
  }

  // ---------------------------------------------------------------- digests

  /** What the digest records besides its text; the hash and the reference come from the store. */
  datatype DigestNote = DigestNote(rawOutputRef: Text, sha256: Text, bytes: nat, estimatedTokens: nat)

  datatype NoteOption = NoNote | SomeNote(note: DigestNote)

  datatype Message =
    | Other(tag: nat)
    | ToolResult(toolCallId: Text, toolName: Text, isError: bool, content: seq<Block>, note: NoteOption)

  /** The decimal digits in groups of three, as toLocaleString writes them by default. */
  function Grouped(n: nat): Text {
    if n < 1_000 then Digits(n)
    else Grouped(n / 1_000) + [U(','), U('0') + n % 1_000 / 100, U('0') + n % 100 / 10, U('0') + n % 10]
  }

  function Preview(text: Text, headChars: nat, tailChars: nat): Text {
    if |text| <= headChars + tailChars + 128 then text
    else
      var head, tail := TrimEnd(text[..headChars]), TrimStart(SliceFromEnd(text, tailChars));
      var omitted := |text| - |head| - |tail|;
      head + OMITTED_START + (if omitted < 0 then [U('-')] + Grouped(-omitted)
                              else Grouped(omitted)) + OMITTED_END + tail
  }

  /** The number that a text spells, its commas aside. */
  function Spelled(text: Text): nat {
    if text == [] then 0
    else
      var before, last := Spelled(text[..|text| - 1]), text[|text| - 1];
      if last == U(',') then before else if last < U('0') then before else before * 10 + last - U('0')
  }

  /** A comma before every three digits from the end, and digits elsewhere, the first not a comma. */
  predicate InThrees(text: Text) {
    && text != [] && text[0] != U(',')
    && forall i :: 0 <= i < |text| ==> if (|text| - i) % 4 == 0 then text[i] == U(',')
                                       else U('0') <= text[i] <= U('9')
  }

  lemma SpelledOneMore(text: Text, last: nat)
    requires U('0') <= last <= U('9')
    ensures Spelled(text + [last]) == Spelled(text) * 10 + last - U('0')
    ensures Spelled(text + [U(',')]) == Spelled(text)
  {
    assert (text + [last])[..|text|] == text && (text + [U(',')])[..|text|] == text;
  }

  lemma {:induction false} DigitsSpell(n: nat)
    ensures Spelled(Digits(n)) == n && forall i :: 0 <= i < |Digits(n)| ==> U('0') <= Digits(n)[i] <= U('9')
  {
    if n < 10 {
      assert Digits(n)[..0] == [];
    } else {
      DigitsSpell(n / 10);
      SpelledOneMore(Digits(n / 10), U('0') + n % 10);
    }
  }

  lemma OneGroupMore(front: Text, a: nat, b: nat, c: nat)
    requires InThrees(front) && a < 10 && b < 10 && c < 10
    ensures var text := front + [U(','), U('0') + a, U('0') + b, U('0') + c];
            InThrees(text) && Spelled(text) == Spelled(front) * 1_000 + a * 100 + b * 10 + c
  {
    hide Spelled;
    SpelledOneMore(front, U('0'));
    SpelledOneMore(front + [U(',')], U('0') + a);
    SpelledOneMore(front + [U(',')] + [U('0') + a], U('0') + b);
    SpelledOneMore(front + [U(',')] + [U('0') + a] + [U('0') + b], U('0') + c);
    assert front + [U(','), U('0') + a, U('0') + b, U('0') + c]
        == front + [U(',')] + [U('0') + a] + [U('0') + b] + [U('0') + c];
  }

  /** The grouped digits spell the number, in threes. */
  lemma {:induction false} GroupedMeans(n: nat)
    ensures InThrees(Grouped(n)) && Spelled(Grouped(n)) == n
  {
    hide Spelled, InThrees;
    if n < 1_000 {
      ShortNumbers(n);
    } else {
      GroupedMeans(n / 1_000);
      DigitsAddUp(n);
      OneGroupMore(Grouped(n / 1_000), n % 1_000 / 100, n % 100 / 10, n % 10);
    }
  }

  lemma DigitsAddUp(n: nat)
    ensures n == n / 1_000 * 1_000 + n % 1_000 / 100 * 100 + n % 100 / 10 * 10 + n % 10
    ensures n % 1_000 / 100 < 10 && n % 100 / 10 < 10
  {
    LastDigits(n);
    var hundreds, tens := n % 1_000 / 100, n % 100 / 10;
    assert n % 1_000 == hundreds * 100 + n % 100 && n % 100 == tens * 10 + n % 10;
  }

  lemma LastDigits(n: nat)
    ensures n % 1_000 % 100 == n % 100
    ensures n % 100 % 10 == n % 10
  {
  }

  lemma ShortNumbers(n: nat)
    requires n < 1_000
    ensures InThrees(Digits(n)) && Spelled(Digits(n)) == n && |Digits(n)| <= 3
  {
    hide Spelled, Digits;
    DigitsSpell(n);
    assert PowerOfTen(3) == 1_000;
    DigitsAreFew(n, 3);
  }

  lemma {:induction false} GroupedIsShort(n: nat, k: nat)
    requires k >= 1 && n < PowerOfTen(3 * k)
    ensures |Grouped(n)| <= 4 * k - 1
    decreases k
  {
    if n < 1_000 {
      ShortNumbers(n);
    } else {
      assert PowerOfTen(3 * k) == 10 * PowerOfTen(3 * k - 1) && PowerOfTen(3 * k - 1) == 10 * PowerOfTen(3 * k - 2);
      assert PowerOfTen(3 * k - 2) == 10 * PowerOfTen(3 * (k - 1));
      GroupedIsShort(n / 1_000, k - 1);
    }
  }

  /** With a tail, no preview is longer than its text, and one that cuts has 60 characters at most besides head
      and tail. */
  lemma PreviewShortens(text: Text, headChars: nat, tailChars: nat)
    requires tailChars >= 1 && |text| <= MAX_LENGTH
    ensures |Preview(text, headChars, tailChars)| <= |text|
    ensures |text| > headChars + tailChars + 128 ==> |Preview(text, headChars, tailChars)| <= headChars + tailChars + 60
  {
    hide Grouped;
    if |text| > headChars + tailChars + 128 {
      OmissionMarkIsShort();
      SliceHasLength(text, tailChars);
      var head, tail := TrimEnd(text[..headChars]), TrimStart(SliceFromEnd(text, tailChars));
      hide TrimEnd, TrimStart, SliceFromEnd;
      EighteenDigits(|text| - |head| - |tail|);
    }
  }

  lemma EighteenDigits(n: nat)
    requires n <= MAX_LENGTH
    ensures |Grouped(n)| <= 23
  {
    assert PowerOfTen(6) == 1_000_000;
    assert PowerOfTen(12) == 1_000_000 * PowerOfTen(6) by { assert PowerOfTen(9) == 1_000 * PowerOfTen(6); }
    assert PowerOfTen(18) == 1_000_000 * PowerOfTen(12) by { assert PowerOfTen(15) == 1_000 * PowerOfTen(12); }
    GroupedIsShort(n, 6);
  }

  /** Without one, `slice(-0)` is the whole text: previews shorten every text exactly with a tail of one
      character or more. */
  lemma PreviewShortensExactlyWithATail(headChars: nat, tailChars: nat)
    requires headChars + 129 <= MAX_LENGTH
    ensures (forall text: Text :: |text| <= MAX_LENGTH ==> |Preview(text, headChars, tailChars)| <= |text|)
            <==> tailChars >= 1
  {
    if tailChars >= 1 {
      forall text: Text | |text| <= MAX_LENGTH ensures |Preview(text, headChars, tailChars)| <= |text| {
        PreviewShortens(text, headChars, tailChars);
      }
    } else {
      var text: Text := seq(headChars + 129, _ => U('a'));
      OmissionMarkIsShort();
      assert |Preview(text, headChars, tailChars)| > |text|;
    }
  }

  function DigestLines(message: Message, ref: Text, sha256: Text, policy: Policy): seq<Text>
    requires message.ToolResult?
  {
    var text := ExtractModelText(message.content);
    var preview := Preview(text, policy.previewHeadChars, policy.previewTailChars);
    var saved := EstimateTokens(text) - EstimateTokens(preview);
    [Ascii("<tool_result_digest>"), Ascii("tool: ") + message.toolName, Ascii("tool_call_id: ") + message.toolCallId,
     Ascii("status: ") + (if message.isError then Ascii("error") else Ascii("success")),
       Ascii("raw_output_ref: ") + ref,
     Ascii("sha256: ") + sha256, Ascii("raw_bytes: ") + Digits(Utf8Bytes(text)),
       Ascii("estimated_tokens: ") + Digits(EstimateTokens(text)),
     Ascii("approx_tokens_saved: ") + Digits(if saved < 0 then 0 else saved), Ascii("preview:"), preview,
       Ascii("</tool_result_digest>")]
  }

  function DigestContent(message: Message, ref: Text, sha256: Text, policy: Policy): seq<Block>
    requires message.ToolResult?
  {
    var text := Join(DigestLines(message, ref, sha256, policy), Ascii("\n"));
    [TextBlock(if |text| <= policy.maxDigestChars then text else text[..policy.maxDigestChars])]
  }

  function DigestMessage(message: Message, ref: Text, sha256: Text, policy: Policy): Message
    requires message.ToolResult?
  {
    var text := ExtractModelText(message.content);
    message.(content := DigestContent(message, ref, sha256, policy),
             note := SomeNote(DigestNote(ref, sha256, Utf8Bytes(text), EstimateTokens(text))))
  }

  predicate IsSlimmable(message: Message, policy: Policy) {
    message.ToolResult? && IsLarge(ExtractModelText(message.content), policy)
  }

  /** Policies under which a digest is never large itself. */
  predicate DigestsAreSmall(policy: Policy) {
    3 * policy.maxDigestChars < policy.rawBytesThreshold
    && (policy.maxDigestChars + 3) / 4 < policy.estimatedTokensThreshold
  }

  lemma DigestIsNotSlimmable(message: Message, ref: Text, sha256: Text, policy: Policy)
    requires message.ToolResult? && DigestsAreSmall(policy)
    ensures !IsSlimmable(DigestMessage(message, ref, sha256, policy), policy)
  {
    hide DigestLines;
    var content := DigestContent(message, ref, sha256, policy);
    var text := content[0].text;
    assert content[1..] == [];
    assert ModelLines(content) == [text];
    assert ExtractModelText(content) == text;
    AtMostThreeBytesEach(text);
  }

  // ---------------------------------------------------------------- transformModelContext

  /** What storing one large result and reporting it comes to: all goes well; the result is kept but the
      report fails, and then the report of that may fail too; or the result is not kept. */
  datatype Attempt =
    | Kept(ref: Text, sha256: Text)
    | KeptUnreported(ref: Text, sha256: Text, failureReported: bool)
    | NotKept(failureReported: bool)

  datatype Outcome = Thrown | Context(messages: seq<Message>)

  /** What one message contributes. */
  function Contribution(message: Message, policy: Policy, attempt: Attempt): Outcome {
    if !IsSlimmable(message, policy) then Context([message])
    else
      match attempt
      case Kept(ref, sha256) => Context([DigestMessage(message, ref, sha256, policy)])
      case KeptUnreported(ref, sha256, failureReported) =>
        if failureReported then Context([DigestMessage(message, ref, sha256, policy), message]) else Thrown
      case NotKept(failureReported) => if failureReported then Context([message]) else Thrown
  }

  /** The contributions of the first n messages, one after another. */
  function Contributions(messages: seq<Message>, policy: Policy, attempts: nat -> Attempt, n: nat): Outcome
    requires n <= |messages|
  {
    if n == 0 then Context([])
    else
      match Contributions(messages, policy, attempts, n - 1)
      case Thrown => Thrown
      case Context(before) =>
        match Contribution(messages[n - 1], policy, attempts(n - 1))
        case Thrown => Thrown
        case Context(more) => Context(before + more)
  }

  /** Whether some message has been replaced, so that a last report is due. */
  predicate SomeReplaced(messages: seq<Message>, policy: Policy, attempts: nat -> Attempt) {
    exists i :: 0 <= i < |messages| && IsSlimmable(messages[i], policy) && !attempts(i).NotKept?
  }

  function Transformed(messages: seq<Message>, policy: Policy, attempts: nat -> Attempt, lastReported: bool): Outcome {
    if SomeReplaced(messages, policy, attempts) && !lastReported then Thrown
    else Contributions(messages, policy, attempts, |messages|)
  }

  method TransformModelContext(messages: seq<Message>, policy: Policy, attempts: nat -> Attempt, lastReported: bool)
    returns (outcome: Outcome)
    ensures outcome == Transformed(messages, policy, attempts, lastReported)
  {
    hide DigestMessage, IsLarge;
    var transformedToolResults := 0;
    var transformed: seq<Message> := [];
    var index := 0;
    while index < |messages|
      invariant 0 <= index <= |messages|
      invariant Contributions(messages, policy, attempts, index) == Context(transformed)
      invariant transformedToolResults > 0 <==>
                  exists i :: 0 <= i < index && IsSlimmable(messages[i], policy) && !attempts(i).NotKept?
      invariant transformedToolResults >= 0
    {
      var message := messages[index];
      var attempt := attempts(index);
      index := index + 1;
      if !IsSlimmable(message, policy) {
        transformed := transformed + [message];
        continue;
      }
      if !attempt.NotKept? {
        transformed := transformed + [DigestMessage(message, attempt.ref, attempt.sha256, policy)];
        transformedToolResults := transformedToolResults + 1;
      }
      if !attempt.Kept? {
        if !attempt.failureReported {
          ThrownStays(messages, policy, attempts, index);
          return Thrown;
        }
        transformed := transformed + [message];
      }
    }
    if transformedToolResults > 0 && !lastReported {
      return Thrown;
    }
    outcome := Context(transformed);
  }

  lemma {:induction false} ThrownStays(messages: seq<Message>, policy: Policy, attempts: nat -> Attempt, n: nat)
    requires n <= |messages| && Contributions(messages, policy, attempts, n) == Thrown
    ensures Contributions(messages, policy, attempts, |messages|) == Thrown
    decreases |messages| - n
  {
    if n < |messages| { ThrownStays(messages, policy, attempts, n + 1); }
  }

  // ---------------------------------------------------------------- slimming is a projection

  /** A result kept but not reported: the catch block then adds the message to its own digest. */
  predicate Doubled(messages: seq<Message>, policy: Policy, attempts: nat -> Attempt, i: nat)
    requires i < |messages|
  {
    IsSlimmable(messages[i], policy) && attempts(i).KeptUnreported?
  }

  /** A message, or its digest. */
  predicate Stands(a: Message, b: Message, policy: Policy, attempt: Attempt) {
    b == a || (IsSlimmable(a, policy) && !attempt.NotKept?
               && b == DigestMessage(a, attempt.ref, attempt.sha256, policy))
  }

  lemma {:induction false} LengthOfContributions(messages: seq<Message>, policy: Policy, attempts: nat -> Attempt,
                                                 n: nat)
    requires n <= |messages| && Contributions(messages, policy, attempts, n).Context?
    ensures var out := Contributions(messages, policy, attempts, n).messages;
            && |out| >= n
            && (|out| == n <==> forall i :: 0 <= i < n ==> !Doubled(messages, policy, attempts, i))
            && (|out| == n ==> forall i :: 0 <= i < n ==> Stands(messages[i], out[i], policy, attempts(i)))
  {
    hide DigestMessage, IsLarge, IsSlimmable;
    if n > 0 {
      LengthOfContributions(messages, policy, attempts, n - 1);
      var before := Contributions(messages, policy, attempts, n - 1).messages;
      var more := Contribution(messages[n - 1], policy, attempts(n - 1)).messages;
      OneOrTwo(messages[n - 1], policy, attempts(n - 1));
      assert Contributions(messages, policy, attempts, n).messages == before + more;
      assert |before + more| == n <==> |before| == n - 1 && |more| == 1;
      assert |more| == 2 <==> Doubled(messages, policy, attempts, n - 1);
      if |before + more| == n {
        assert (before + more)[n - 1] == more[0];
        assert forall i :: 0 <= i < n - 1 ==> (before + more)[i] == before[i];
      }
    }
  }

  lemma OneOrTwo(message: Message, policy: Policy, attempt: Attempt)
    requires Contribution(message, policy, attempt).Context?
    ensures var more := Contribution(message, policy, attempt).messages;
            && 1 <= |more| <= 2 && (|more| == 2 <==> IsSlimmable(message, policy) && attempt.KeptUnreported?)
            && (|more| == 1 ==> Stands(message, more[0], policy, attempt))
  {
    hide DigestMessage, IsLarge;
  }

  /** The slimmed context has a message for every message, in order, each itself or its digest - exactly
      unless a stored result could not be reported: then both go to the model. */
  lemma SlimmingProjectsExactly(messages: seq<Message>, policy: Policy, attempts: nat -> Attempt, lastReported: bool)
    requires Transformed(messages, policy, attempts, lastReported).Context?
    ensures var out := Transformed(messages, policy, attempts, lastReported).messages;
            && (|out| == |messages| <==> forall i :: 0 <= i < |messages| ==> !Doubled(messages, policy, attempts, i))
            && (|out| == |messages| ==> forall i :: 0 <= i < |messages| ==>
                  Stands(messages[i], out[i], policy, attempts(i)))
  {
    LengthOfContributions(messages, policy, attempts, |messages|);
  }

  /** A result is replaced exactly where one of the two thresholds is reached and it has been stored; a digest
      keeps what the result was the answer to, and notes where its text is. */
  lemma ResultsAreReplacedExactly(messages: seq<Message>, policy: Policy, attempts: nat -> Attempt, lastReported: bool,
                                  i: nat)
    requires Transformed(messages, policy, attempts, lastReported).Context? && i < |messages|
    requires |Transformed(messages, policy, attempts, lastReported).messages| == |messages|
    ensures var a, b := messages[i], Transformed(messages, policy, attempts, lastReported).messages[i];
            if a.Other? then b == a
            else
              var text := ExtractModelText(a.content);
              if (Utf8Bytes(text) >= policy.rawBytesThreshold || (|text| + 3) / 4 >= policy.estimatedTokensThreshold)
                 && !attempts(i).NotKept? then
                && b.ToolResult? && b == a.(content := b.content, note := b.note)
                && b.note == SomeNote(DigestNote(attempts(i).ref, attempts(i).sha256, Utf8Bytes(text),
                                                 (|text| + 3) / 4))
                && |b.content| == 1 && b.content[0].TextBlock? && |b.content[0].text| <= policy.maxDigestChars
              else b == a
  {
    hide DigestLines, Contributions;
    ContributionStands(messages, policy, attempts, |messages|, i);
  }

  lemma {:induction false} ContributionStands(messages: seq<Message>, policy: Policy, attempts: nat -> Attempt, n: nat,
                                              i: nat)
    requires i < n <= |messages| && Contributions(messages, policy, attempts, n).Context?
    requires |Contributions(messages, policy, attempts, n).messages| == n
    ensures Contribution(messages[i], policy, attempts(i))
            == Context([Contributions(messages, policy, attempts, n).messages[i]])
  {
    hide Contribution;
    LengthOfContributions(messages, policy, attempts, n);
    LengthOfContributions(messages, policy, attempts, n - 1);
    if i < n - 1 { ContributionStands(messages, policy, attempts, n - 1, i); }
  }

  function NonTool(messages: seq<Message>): seq<Message> {
    if messages == [] then []
    else
      var before := NonTool(messages[..|messages| - 1]);
      if messages[|messages| - 1].Other? then before + [messages[|messages| - 1]] else before
  }

  lemma {:induction false} NonToolConcat(a: seq<Message>, b: seq<Message>)
    ensures NonTool(a + b) == NonTool(a) + NonTool(b)
    decreases |b|
  {
    if b == [] {
      assert a + b == a;
    } else {
      var rest := b[..|b| - 1];
      assert (a + b)[..|a + b| - 1] == a + rest;
      NonToolConcat(a, rest);
    }
  }

  /** Whatever the store and the reports do, no other message is lost, added, changed or moved. */
  lemma {:induction false} OtherMessagesAreKept(messages: seq<Message>, policy: Policy, attempts: nat -> Attempt,
                                                n: nat)
    requires n <= |messages| && Contributions(messages, policy, attempts, n).Context?
    ensures NonTool(Contributions(messages, policy, attempts, n).messages) == NonTool(messages[..n])
  {
    hide DigestMessage, IsLarge, IsSlimmable, Contribution;
    if n > 0 {
      OtherMessagesAreKept(messages, policy, attempts, n - 1);
      var more := Contribution(messages[n - 1], policy, attempts(n - 1)).messages;
      NonToolConcat(Contributions(messages, policy, attempts, n - 1).messages, more);
      assert messages[..n][..n - 1] == messages[..n - 1];
      assert NonTool(more) == if messages[n - 1].Other? then [messages[n - 1]] else [] by {
        OneContribution(messages[n - 1], policy, attempts(n - 1));
      }
    }
  }

  lemma OneContribution(message: Message, policy: Policy, attempt: Attempt)
    requires Contribution(message, policy, attempt).Context?
    ensures NonTool(Contribution(message, policy, attempt).messages) == if message.Other? then [message] else []
  {
    hide DigestContent, IsLarge;
    var more := Contribution(message, policy, attempt).messages;
    assert NonTool([]) == [];
    assert more[..0] == [];
    if |more| == 2 {
      assert more[..1] == [more[0]] && [more[0]][..0] == [];
      assert NonTool([more[0]]) == [];
    }
  }

  /** When every store succeeds and digests are small, no tool result of the output is large, and slimming
      the output again changes nothing, whatever the store would do. */
  lemma SlimmingTwiceIsSlimmingOnce(messages: seq<Message>, policy: Policy, attempts: nat -> Attempt,
                                    again: nat -> Attempt,
                                    lastReported: bool, lastReportedAgain: bool)
    requires DigestsAreSmall(policy)
    requires forall i :: 0 <= i < |messages| && IsSlimmable(messages[i], policy) ==> attempts(i).Kept?
    requires Transformed(messages, policy, attempts, lastReported).Context?
    ensures var out := Transformed(messages, policy, attempts, lastReported).messages;
            && (forall i :: 0 <= i < |out| ==> !IsSlimmable(out[i], policy))
            && Transformed(out, policy, again, lastReportedAgain) == Context(out)
  {
    var out := Transformed(messages, policy, attempts, lastReported).messages;
    KeptContributionsAreSmall(messages, policy, attempts, |messages|);
    NothingToSlim(out, policy, again, |out|);
    assert out[..|out|] == out;
  }

  lemma {:induction false} KeptContributionsAreSmall(messages: seq<Message>, policy: Policy, attempts: nat -> Attempt,
                                                     n: nat)
    requires n <= |messages| && DigestsAreSmall(policy)
    requires forall i :: 0 <= i < n && IsSlimmable(messages[i], policy) ==> attempts(i).Kept?
    ensures Contributions(messages, policy, attempts, n).Context?
    ensures forall i :: 0 <= i < |Contributions(messages, policy, attempts, n).messages| ==>
                          !IsSlimmable(Contributions(messages, policy, attempts, n).messages[i], policy)
  {
    hide DigestMessage, IsLarge;
    if n > 0 {
      KeptContributionsAreSmall(messages, policy, attempts, n - 1);
      if IsSlimmable(messages[n - 1], policy) {
        DigestIsNotSlimmable(messages[n - 1], attempts(n - 1).ref, attempts(n - 1).sha256, policy);
      }
    }
  }

  lemma {:induction false} NothingToSlim(messages: seq<Message>, policy: Policy, attempts: nat -> Attempt, n: nat)
    requires n <= |messages| && forall i :: 0 <= i < |messages| ==> !IsSlimmable(messages[i], policy)
    ensures Contributions(messages, policy, attempts, n) == Context(messages[..n])
  {
    if n > 0 {
      NothingToSlim(messages, policy, attempts, n - 1);
      assert messages[..n] == messages[..n - 1] + [messages[n - 1]];
    }
  }
}
