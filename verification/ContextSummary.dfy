/** Summaries of a model context: serialized messages, cut in the middle to a given length. */
module ContextSummary {
  import opened CodeUnits

  /** The longest string of the language, section 6.1.4 of ECMA-262. */
  const MAX_LENGTH: nat := 0x1F_FFFF_FFFF_FFFF

  // ---------------------------------------------------------------- truncateMiddle

  const OMITTED_START := Ascii("\n\n[... ")
  const OMITTED_END := Ascii(" characters omitted ...]\n\n")

  /** text.slice(-n): the last n units, but for n = 0 the whole text, since -0 counts from the front. */
  function SliceFromEnd(text: Text, n: nat): Text
    requires n <= |text|
  {
    if n == 0 then text else text[|text| - n..]
  }

  function HeadLength(maxChars: nat): nat {
    maxChars * 65 / 100
  }

  function TailLength(maxChars: nat): nat {
    var left := maxChars - HeadLength(maxChars) - 80;
    if left > 0 then left else 0
  }

  function TruncateMiddle(text: Text, maxChars: nat): Text {
    if |text| <= maxChars then text
    else
      var head, tail := HeadLength(maxChars), TailLength(maxChars);
      TrimEnd(text[..head]) + OMITTED_START + Digits(|text| - head - tail) + OMITTED_END + TrimStart(SliceFromEnd(text,
                                                                                                                  tail))
  }

  function PowerOfTen(k: nat): nat {
    if k == 0 then 1 else 10 * PowerOfTen(k - 1)
  }

  lemma {:induction false} DigitsAreFew(n: nat, k: nat)
    requires k >= 1 && n < PowerOfTen(k)
    ensures |Digits(n)| <= k
    decreases k
  {
    if n >= 10 {
      assert k > 1;
      assert n / 10 < PowerOfTen(k - 1);
      DigitsAreFew(n / 10, k - 1);
    }
  }

  lemma SixteenDigits(n: nat)
    requires n <= MAX_LENGTH
    ensures |Digits(n)| <= 16
  {
    assert PowerOfTen(4) == 10_000;
    assert PowerOfTen(8) == 100_000_000 by { assert PowerOfTen(6) == 1_000_000; }
    assert PowerOfTen(12) == 1_000_000_000_000 by { assert PowerOfTen(10) == 10_000_000_000; }
    assert PowerOfTen(16) == 10_000_000_000_000_000 by { assert PowerOfTen(14) == 100_000_000_000_000; }
    DigitsAreFew(n, 16);
  }

  lemma OmissionMarkIsShort()
    ensures |OMITTED_START| == 7 && |OMITTED_END| == 26
  {
  }

  lemma LengthsAddUp(maxChars: nat)
    requires maxChars >= 229
    ensures TailLength(maxChars) >= 1 && HeadLength(maxChars) + TailLength(maxChars) == maxChars - 80
  {
  }

  /** From 229 on the tail is never empty, and the result fits. */
  lemma TruncationFits(text: Text, maxChars: nat)
    requires maxChars >= 229 && |text| <= MAX_LENGTH
    ensures |TruncateMiddle(text, maxChars)| <= maxChars
  {
    hide HeadLength, TailLength, Digits;
    if |text| > maxChars {
      var head, tail := HeadLength(maxChars), TailLength(maxChars);
      LengthsAddUp(maxChars);
      SixteenDigits(|text| - head - tail);
      OmissionMarkIsShort();
      hide TrimEnd, TrimStart, SliceFromEnd;
      assert |TrimEnd(text[..head])| <= head;
      assert |SliceFromEnd(text, tail)| == tail by { SliceHasLength(text, tail); }
      assert |TrimStart(SliceFromEnd(text, tail))| <= tail;
    }
  }

  lemma SliceHasLength(text: Text, n: nat)
    requires 0 < n <= |text|
    ensures |SliceFromEnd(text, n)| == n
  {
  }

  lemma NoTailBelow229(maxChars: nat)
    ensures maxChars < 229 <==> TailLength(maxChars) == 0
  {
  }

  /** Below 229 the empty tail becomes the whole text: what is cut comes out longer than it went in,
      unless the text begins with white space. */
  lemma TruncationGrowsBelow229(text: Text, maxChars: nat)
    requires maxChars < 229 && |text| > maxChars && !IsBlank(text[0])
    ensures |TruncateMiddle(text, maxChars)| > |text|
  {
    NoTailBelow229(maxChars);
    OmissionMarkIsShort();
  }

  /** So 229 is exactly the length from which truncation keeps its promise for every text. */
  lemma TruncationFitsExactlyFrom229(maxChars: nat)
    ensures (forall text: Text :: |text| <= MAX_LENGTH ==> |TruncateMiddle(text, maxChars)| <= maxChars)
            <==> maxChars >= 229
  {
    if maxChars >= 229 {
      forall text: Text | |text| <= MAX_LENGTH ensures |TruncateMiddle(text, maxChars)| <= maxChars {
        TruncationFits(text, maxChars);
      }
    } else {
      var text: Text := seq(maxChars + 1, _ => U('a'));
      TruncationGrowsBelow229(text, maxChars);
      assert |TruncateMiddle(text, maxChars)| > maxChars;
    }
  }

  // ---------------------------------------------------------------- messages

  datatype Block =
    | TextBlock(text: Text)
    | ToolCallBlock(name: Text, id: Text, arguments: Text)
    | ThinkingBlock
    | ImageBlock
    | OtherBlock(kind: Text)

  function Kind(block: Block): Text {
    match block
    case TextBlock(_) => Ascii("text")
    case ToolCallBlock(_, _, _) => Ascii("toolCall")
    case ThinkingBlock => Ascii("thinking")
    case ImageBlock => Ascii("image")
    case OtherBlock(kind) => kind
  }

  datatype AgentMessage =
    | FromTool(toolName: Text, toolCallId: Text, content: seq<Block>)
    | FromAssistant(content: seq<Block>)
    | Plain(role: Text, body: Text)

  function Lines(content: seq<Block>): seq<Text> {
    if content == [] then []
    else
      var rest := Lines(content[1..]);
      match content[0]
      case TextBlock(text) => [text] + rest
      case ToolCallBlock(name, id, arguments) =>
        [Ascii("[toolCall:") + name + Ascii(":") + id + Ascii("] ") + arguments] + rest
      case ThinkingBlock => rest
      case _ => [Ascii("[") + Kind(content[0]) + Ascii(" content]")] + rest
  }

  function SerializeMessage(message: AgentMessage): Text {
    match message
    case FromTool(toolName, toolCallId, content) =>
      Ascii("[toolResult:") + toolName + Ascii(":") + toolCallId + Ascii("]\n")
      + TruncateMiddle(Join(Lines(content), Ascii("\n")), 2_500)
    case FromAssistant(content) => Ascii("[assistant]\n") + TruncateMiddle(Join(Lines(content), Ascii("\n")), 3_500)
    case Plain(role, body) => Ascii("[") + role + Ascii("]\n") + TruncateMiddle(body, 3_500)
  }

  // ---------------------------------------------------------------- summarizeMessages

  const BLANK_LINE := Ascii("\n\n")

  function Chunks(messages: seq<AgentMessage>): seq<Text> {
    if messages == [] then [] else Chunks(messages[..|messages| - 1]) + [SerializeMessage(messages[|messages| - 1])]
  }

  /** The first messages whose joined texts reach maxChars, or all of them. */
  ghost predicate IsGathered(messages: seq<AgentMessage>, n: nat, maxChars: nat) {
    && n <= |messages|
    && (forall k :: 0 < k < n ==> |Join(Chunks(messages[..k]), BLANK_LINE)| < maxChars)
    && (n < |messages| ==> n > 0 && |Join(Chunks(messages[..n]), BLANK_LINE)| >= maxChars)
  }

  /** The texts of the first n messages, cut to maxChars. */
  function Summary(messages: seq<AgentMessage>, n: nat, maxChars: nat): Text
    requires n <= |messages|
  {
    TruncateMiddle(Join(Chunks(messages[..n]), BLANK_LINE), maxChars)
  }

  method SummarizeMessages(messages: seq<AgentMessage>, maxChars: nat) returns (summary: Text)
    ensures exists n :: IsGathered(messages, n, maxChars) && summary == Summary(messages, n, maxChars)
  {
    var chunks: seq<Text> := [];
    var index := 0;
    ghost var gathered := |messages|;
    while index < |messages|
      invariant 0 <= index <= |messages| && gathered == |messages|
      invariant chunks == Chunks(messages[..index])
      invariant forall k :: 0 < k <= index ==> |Join(Chunks(messages[..k]), BLANK_LINE)| < maxChars
    {
      chunks := chunks + [SerializeMessage(messages[index])];
      assert messages[..index + 1][..index] == messages[..index];
      index := index + 1;
      if |Join(chunks, BLANK_LINE)| >= maxChars {
        gathered := index;
        break;
      }
    }
    assert index == |messages| ==> messages[..index] == messages;
    summary := TruncateMiddle(Join(chunks, BLANK_LINE), maxChars);
    assert IsGathered(messages, gathered, maxChars) && summary == Summary(messages, gathered, maxChars);
  }

  lemma GatheredIsUnique(messages: seq<AgentMessage>, n: nat, m: nat, maxChars: nat)
    requires IsGathered(messages, n, maxChars) && IsGathered(messages, m, maxChars)
    ensures n == m
  {
  }

  /** No summary is longer than asked for. */
  lemma SummaryFits(messages: seq<AgentMessage>, n: nat, maxChars: nat)
    requires IsGathered(messages, n, maxChars) && maxChars >= 229
    requires |Join(Chunks(messages[..n]), BLANK_LINE)| <= MAX_LENGTH
    ensures |Summary(messages, n, maxChars)| <= maxChars
  {
    TruncationFits(Join(Chunks(messages[..n]), BLANK_LINE), maxChars);
  }

  lemma {:induction false} ChunksArePrefixes(messages: seq<AgentMessage>, k: nat)
    requires k <= |messages|
    ensures JoinedLength(Chunks(messages[..k]), BLANK_LINE) <= JoinedLength(Chunks(messages), BLANK_LINE)
    ensures 0 < k < |messages| ==>
              JoinedLength(Chunks(messages[..k]), BLANK_LINE) < JoinedLength(Chunks(messages), BLANK_LINE)
    decreases |messages| - k
  {
    assert messages[..|messages|] == messages;
    if k < |messages| {
      var chunks := Chunks(messages[..k]);
      assert messages[..k + 1][..k] == messages[..k];
      JoinGrows(chunks, SerializeMessage(messages[k]), BLANK_LINE);
      assert k > 0 ==> chunks != [] by { if k > 0 { assert |Chunks(messages[..k])| > 0; } }
      ChunksArePrefixes(messages, k + 1);
    }
  }

  /** A context that fits is summarized in full: neither the loop nor the cut loses anything. */
  lemma WhatFitsIsKept(messages: seq<AgentMessage>, n: nat, maxChars: nat)
    requires IsGathered(messages, n, maxChars) && |Join(Chunks(messages), BLANK_LINE)| <= maxChars
    ensures Summary(messages, n, maxChars) == Join(Chunks(messages), BLANK_LINE)
  {
    JoinHasLength(Chunks(messages), BLANK_LINE);
    JoinHasLength(Chunks(messages[..n]), BLANK_LINE);
    ChunksArePrefixes(messages, n);
    assert n == |messages|;
    assert messages[..n] == messages;
  }

  // ---------------------------------------------------------------- token estimates

  function EstimateTokens(text: Text): nat {
    (|text| + 3) / 4
  }

  method EstimateContextTokens(messages: seq<AgentMessage>) returns (tokens: nat)
    requires forall n :: 0 <= n <= |messages| ==> |Join(Chunks(messages[..n]), BLANK_LINE)| <= MAX_LENGTH
    ensures tokens <= 500_000
    ensures |Join(Chunks(messages), BLANK_LINE)| <= 2_000_000 ==>
              tokens == EstimateTokens(Join(Chunks(messages), BLANK_LINE))
  {
    var summary := SummarizeMessages(messages, 2_000_000);
    ghost var gathered :| IsGathered(messages, gathered, 2_000_000)
    && summary == Summary(messages, gathered, 2_000_000);
    SummaryFits(messages, gathered, 2_000_000);
    if |Join(Chunks(messages), BLANK_LINE)| <= 2_000_000 {
      WhatFitsIsKept(messages, gathered, 2_000_000);
    }
    tokens := EstimateTokens(summary);
  }
}
