/** `streaming_handler`: the translation of the graph's message stream into
    the frames of the AI SDK data stream protocol. The stream is a finite
    sequence of items, optionally followed by the exception that ended it;
    frames are a tagged datatype (the JSON text inside each line is not
    modelled). */
module Streaming {
  import opened Results

  datatype ToolCall = ToolCall(id: string, name: string, args: string)

  /** The two kinds of message the graph streams: an AI message chunk (text,
      tool calls and usage metadata; a missing usage is the empty map) and a
      tool message, which carries its own message id besides the id of the
      tool call it answers. */
  datatype Event =
    | AiChunk(content: string, toolCalls: seq<ToolCall>, usage: map<string, int>)
    | ToolResult(id: Option<string>, toolCallId: string, content: string)

  /** One streamed item with the `thread_id` read off its metadata. */
  datatype Item = Item(event: Event, threadId: Option<string>)

  datatype Frame =
    | Start(messageId: string)                                   // f:
    | TextDelta(text: string)                                     // 0:
    | ToolCallFrame(toolCallId: string, toolName: string, args: string)  // 9:
    | ToolResultFrame(resultId: Option<string>, result: string) // a:
    | FinishStep(promptTokens: int, completionTokens: int)        // e:
    | ErrorFrame(text: string)                                    // 3:
    | FinishMessage(promptTokens: int, completionTokens: int)     // d:

  /** A usage counter, 0 when absent. */
  function UsageOf(usage: map<string, int>, key: string): int {
    if key in usage then usage[key] else 0
  }

  function PromptOf(e: Event): int {
    if e.AiChunk? then UsageOf(e.usage, "input_tokens") else 0
  }

  function CompletionOf(e: Event): int {
    if e.AiChunk? then UsageOf(e.usage, "output_tokens") else 0
  }

  /** Token totals over a stream, summed from the front. */
  function PromptTotal(items: seq<Item>): int {
    if |items| == 0 then 0 else PromptTotal(items[..|items| - 1]) + PromptOf(items[|items| - 1].event)
  }

  function CompletionTotal(items: seq<Item>): int {
    if |items| == 0 then 0 else CompletionTotal(items[..|items| - 1]) + CompletionOf(items[|items| - 1].event)
  }

  /** The message id fixed at the first item: its thread id when truthy, else
      a freshly generated one. */
  function MessageId(first: Item, freshId: string): string {
    if Truthy(first.threadId) then first.threadId.value else freshId
  }

  function ToolCallFrames(calls: seq<ToolCall>): (r: seq<Frame>)
    ensures |r| == |calls|
    ensures forall k :: 0 <= k < |r| ==> r[k] == ToolCallFrame(calls[k].id, calls[k].name, calls[k].args)
  {
    if |calls| == 0 then [] else [ToolCallFrame(calls[0].id, calls[0].name, calls[0].args)] + ToolCallFrames(calls[1..])
  }

  /** Position of a frame kind in the order one event's frames take. */
  function Rank(f: Frame): int {
    match f
    case TextDelta(_) => 0
    case ToolCallFrame(_, _, _) => 1
    case ToolResultFrame(_, _) => 2
    case _ => 3
  }

  /** Frames that only the per-item part of the stream produces. */
  predicate IsBody(f: Frame) {
    f.TextDelta? || f.ToolCallFrame? || f.ToolResultFrame?
  }

  /** The frames one item yields: text when the content is non-empty, one
      tool-call frame per call when the content is empty, and a tool-result
      frame for a tool message (carrying the message's own id). */
  function EventFrames(e: Event): (r: seq<Frame>)
    ensures forall i, j :: 0 <= i < j < |r| ==> Rank(r[i]) <= Rank(r[j])
    ensures forall f :: f in r ==> IsBody(f)
    ensures e.content != "" ==> |r| > 0 && r[0] == TextDelta(e.content)
    ensures e.content == "" ==> forall k :: 0 <= k < |r| ==> !r[k].TextDelta?
    ensures e.AiChunk? && e.content == "" ==> r == ToolCallFrames(e.toolCalls)
    ensures e.AiChunk? && e.content != "" ==> forall k :: 0 <= k < |r| ==> !r[k].ToolCallFrame?
    ensures e.AiChunk? ==> forall k :: 0 <= k < |r| ==> !r[k].ToolResultFrame?
    ensures e.ToolResult? ==> |r| > 0 && r[|r| - 1] == ToolResultFrame(e.id, e.content)
    ensures e.AiChunk? && e.content != "" ==> |r| == 1
    ensures e.ToolResult? ==> |r| == if e.content != "" then 2 else 1
  {
    match e
    case AiChunk(content, calls, _) =>
      if content != "" then [TextDelta(content)] else ToolCallFrames(calls)
    case ToolResult(id, _, content) =>
      (if content != "" then [TextDelta(content)] else []) + [ToolResultFrame(id, content)]
  }

  /** The per-item frames of a whole stream, in order. */
  function BodyFrames(items: seq<Item>): seq<Frame> {
    if |items| == 0 then [] else BodyFrames(items[..|items| - 1]) + EventFrames(items[|items| - 1].event)
  }

  function StartFrames(items: seq<Item>, freshId: string): seq<Frame> {
    if |items| == 0 then [] else [Start(MessageId(items[0], freshId))]
  }

  /** The reference definition of the whole frame stream: start, the items'
      frames, then the step end (or the error when the stream raised), then
      the message end in the `finally` block. */
  function Encode(items: seq<Item>, failure: Option<string>, freshId: string): seq<Frame> {
    var p := PromptTotal(items);
    var c := CompletionTotal(items);
    StartFrames(items, freshId) + BodyFrames(items)
      + (if failure.None? then [FinishStep(p, c)] else [ErrorFrame(failure.value)])
      + [FinishMessage(p, c)]
  }

  /** One item's frames, produced by the handler's three independent tests
      in sequence. */
  method ItemFrames(e: Event) returns (out: seq<Frame>)
    ensures out == EventFrames(e)
  {
    out := [];
    if e.content != "" {
      out := out + [TextDelta(e.content)];
    }
    if e.AiChunk? && e.content == "" {
      out := out + ToolCallFrames(e.toolCalls);
    }
    if e.ToolResult? {
      out := out + [ToolResultFrame(e.id, e.content)];
    }
  }

  /** Extending a stream prefix by one item extends each running total and
      the frames by that item's share. */
  lemma PrefixStep(items: seq<Item>, i: nat, freshId: string)
    requires i < |items|
    ensures PromptTotal(items[..i + 1]) == PromptTotal(items[..i]) + PromptOf(items[i].event)
    ensures CompletionTotal(items[..i + 1]) == CompletionTotal(items[..i]) + CompletionOf(items[i].event)
    ensures BodyFrames(items[..i + 1]) == BodyFrames(items[..i]) + EventFrames(items[i].event)
    ensures StartFrames(items[..i + 1], freshId) == [Start(MessageId(items[0], freshId))]
  {
    assert items[..i + 1][..i] == items[..i];
    assert items[..i + 1][i] == items[i];
  }

  /** Emitting the start frame once, before the first item's frames, keeps
      the yielded frames equal to the start frame followed by the body. */
  lemma ExtendFrames(first: bool, startFrame: Frame, frames: seq<Frame>, body: seq<Frame>, start: seq<Frame>,
                     out: seq<Frame>)
    requires first ==> frames == [] && body == [] && start == [startFrame]
    requires !first ==> frames == [startFrame] + body && start == []
    ensures frames + start + out == [startFrame] + (body + out)
  {
    if !first {
      assert frames + start + out == [startFrame] + body + out;
    }
  }

  /** The handler's usage step: an AI chunk with non-empty usage metadata
      adds its input and output tokens to a pair of counters. */
  method Accumulate(prompt: int, completion: int, e: Event) returns (prompt': int, completion': int)
    ensures prompt' == prompt + PromptOf(e)
    ensures completion' == completion + CompletionOf(e)
  {
    prompt', completion' := prompt, completion;
    var usage := if e.AiChunk? then e.usage else map[];
    if usage != map[] {
      prompt' := prompt' + UsageOf(usage, "input_tokens");
      completion' := completion' + UsageOf(usage, "output_tokens");
    }
  }

  /** The handler's opening of the step: the message id is fixed from the
      first item, and the start frame is emitted once. */
  method OpenStep(item: Item, freshId: string, messageId: Option<string>, stepStarted: bool)
    returns (messageId': Option<string>, start: seq<Frame>)
    requires !stepStarted ==> messageId.None?
    ensures stepStarted ==> start == []
    ensures !stepStarted ==> start == [Start(MessageId(item, freshId))]
  {
    messageId' := messageId;
    start := [];
    if !Truthy(messageId') {
      messageId' := Some(MessageId(item, freshId));
    }
    if !stepStarted {
      start := [Start(messageId'.value)];
    }
  }

  /** The handler's mutable state: the message and step counters, the
      message id once fixed, whether the step was started, and the frames
      yielded so far. */
  datatype Handler = Handler(totalPrompt: int, totalCompletion: int, stepPrompt: int, stepCompletion: int,
                             messageId: Option<string>, stepStarted: bool, frames: seq<Frame>)

  /** What the handler's state is after the first `i` items. */
  predicate Consumed(h: Handler, items: seq<Item>, i: nat, freshId: string)
    requires i <= |items|
  {
    && (h.stepStarted <==> i > 0)
    && (i == 0 ==> h.messageId.None?)
    && h.stepPrompt == h.totalPrompt == PromptTotal(items[..i])
    && h.stepCompletion == h.totalCompletion == CompletionTotal(items[..i])
    && h.frames == StartFrames(items[..i], freshId) + BodyFrames(items[..i])
  }

  /** One iteration of the handler's loop. */
  method HandleItem(h: Handler, items: seq<Item>, i: nat, freshId: string) returns (h': Handler)
    requires i < |items|
    requires Consumed(h, items, i, freshId)
    ensures Consumed(h', items, i + 1, freshId)
  {
    var item := items[i];
    var messageId, start := OpenStep(item, freshId, h.messageId, h.stepStarted);
    var stepPrompt, stepCompletion := Accumulate(h.stepPrompt, h.stepCompletion, item.event);
    var totalPrompt, totalCompletion := Accumulate(h.totalPrompt, h.totalCompletion, item.event);
    var out := ItemFrames(item.event);
    PrefixStep(items, i, freshId);
    assert items[..i + 1][0] == items[0];
    if i == 0 {
      assert BodyFrames(items[..0]) == [];
    } else {
      assert items[..i][0] == items[0];
    }
    ExtendFrames(i == 0, Start(MessageId(items[0], freshId)), h.frames, BodyFrames(items[..i]), start, out);
    h' := Handler(totalPrompt, totalCompletion, stepPrompt, stepCompletion, messageId, true, h.frames + start + out);
  }

  /** The handler with its mutable counters and flags, consuming the stream
      item by item; it yields exactly the reference frame stream. */
  method StreamingHandler(items: seq<Item>, failure: Option<string>, freshId: string) returns (frames: seq<Frame>)
    ensures frames == Encode(items, failure, freshId)
  {
    var h := Handler(0, 0, 0, 0, None, false, []);
    var i := 0;
    while i < |items|
      invariant 0 <= i <= |items|
      invariant Consumed(h, items, i, freshId)
    {
      h := HandleItem(h, items, i, freshId);
      i := i + 1;
    }
    assert items[..i] == items;
    frames := h.frames;
    if failure.None? {
      frames := frames + [FinishStep(h.stepPrompt, h.stepCompletion)];
    } else {
      frames := frames + [ErrorFrame(failure.value)];
    }
    frames := frames + [FinishMessage(h.totalPrompt, h.totalCompletion)];
  }

  /** The frame kinds counted below. */
  datatype Kind = StartKind | BodyKind | StepKind | ErrorKind | FinishKind

  function KindOf(f: Frame): Kind {
    match f
    case Start(_) => StartKind
    case FinishStep(_, _) => StepKind
    case ErrorFrame(_) => ErrorKind
    case FinishMessage(_, _) => FinishKind
    case _ => BodyKind
  }

  function Count(frames: seq<Frame>, k: Kind): nat {
    if |frames| == 0 then 0 else (if KindOf(frames[0]) == k then 1 else 0) + Count(frames[1..], k)
  }

  lemma CountSingleton(f: Frame, k: Kind)
    ensures Count([f], k) == if KindOf(f) == k then 1 else 0
  {
    assert [f][1..] == [];
  }

  lemma {:induction false} CountAppend(a: seq<Frame>, b: seq<Frame>, k: Kind)
    ensures Count(a + b, k) == Count(a, k) + Count(b, k)
    decreases |a|
  {
    if |a| == 0 {
      assert a + b == b;
    } else {
      assert (a + b)[1..] == a[1..] + b;
      CountAppend(a[1..], b, k);
    }
  }

  /** A sequence of body frames has no frame of any other kind. */
  lemma {:induction false} CountOfBody(frames: seq<Frame>, k: Kind)
    requires forall f :: f in frames ==> IsBody(f)
    requires k != BodyKind
    ensures Count(frames, k) == 0
    decreases |frames|
  {
    if |frames| > 0 {
      assert frames[0] in frames;
      assert forall f :: f in frames[1..] ==> f in frames;
      CountOfBody(frames[1..], k);
    }
  }

  lemma {:induction false} BodyFramesAreBody(items: seq<Item>)
    ensures forall f :: f in BodyFrames(items) ==> IsBody(f)
    decreases |items|
  {
    if |items| > 0 {
      BodyFramesAreBody(items[..|items| - 1]);
    }
  }

  /** The protocol's framing: at most one start frame, first, and only when
      something was streamed; exactly one message end, last, carrying the
      totals; on normal completion exactly one step end just before it with
      the same counts and no error frame; when the stream raised, exactly one
      error frame with its text and no step end. */
  lemma {:induction false} Framing(items: seq<Item>, failure: Option<string>, freshId: string)
    ensures var fs := Encode(items, failure, freshId);
      && |fs| >= 2
      && Count(fs, StartKind) == (if |items| > 0 then 1 else 0)
      && (|items| > 0 ==> fs[0] == Start(MessageId(items[0], freshId)))
      && Count(fs, FinishKind) == 1
      && fs[|fs| - 1] == FinishMessage(PromptTotal(items), CompletionTotal(items))
      && (failure.None? ==>
            && Count(fs, StepKind) == 1 && Count(fs, ErrorKind) == 0
            && fs[|fs| - 2] == FinishStep(PromptTotal(items), CompletionTotal(items)))
      && (failure.Some? ==>
            && Count(fs, ErrorKind) == 1 && Count(fs, StepKind) == 0
            && fs[|fs| - 2] == ErrorFrame(failure.value))
  {
    FramingCounts(items, failure, freshId);
  }

  /** The counts of the stream's non-body frames, by kind. */
  lemma {:induction false} FramingCounts(items: seq<Item>, failure: Option<string>, freshId: string)
    ensures forall k: Kind | k != BodyKind :: (
      Count(Encode(items, failure, freshId), k) ==
        (if |items| > 0 && k == StartKind then 1 else 0)
        + (if k == (if failure.None? then StepKind else ErrorKind) then 1 else 0)
        + (if k == FinishKind then 1 else 0))
  {
    var p, c := PromptTotal(items), CompletionTotal(items);
    var head := StartFrames(items, freshId);
    var body := BodyFrames(items);
    var end := if failure.None? then [FinishStep(p, c)] else [ErrorFrame(failure.value)];
    var last := [FinishMessage(p, c)];
    assert Encode(items, failure, freshId) == head + body + end + last;
    BodyFramesAreBody(items);
    forall k: Kind | k != BodyKind
      ensures Count(head + body + end + last, k) ==
        (if |items| > 0 && k == StartKind then 1 else 0)
        + (if k == (if failure.None? then StepKind else ErrorKind) then 1 else 0)
        + (if k == FinishKind then 1 else 0)
    {
      CountParts(head, body, end, last, k);
      CountOfBody(body, k);
      if |items| > 0 {
        CountSingleton(Start(MessageId(items[0], freshId)), k);
      }
      CountSingleton(end[0], k);
      CountSingleton(last[0], k);
    }
  }

  lemma CountParts(head: seq<Frame>, body: seq<Frame>, end: seq<Frame>, last: seq<Frame>, k: Kind)
    ensures Count(head + body + end + last, k) == Count(head, k) + Count(body, k) + Count(end, k) + Count(last, k)
  {
    CountAppend(head + body + end, last, k);
    CountAppend(head + body, end, k);
    CountAppend(head, body, k);
  }

  /** Completion counts match: on normal completion the step end and the
      message end report the same token counts. */
  lemma StepCountsMatchTotals(items: seq<Item>, freshId: string)
    ensures var fs := Encode(items, None, freshId);
      |fs| >= 2 && fs[|fs| - 2].FinishStep? && fs[|fs| - 1].FinishMessage?
      && fs[|fs| - 2].promptTokens == fs[|fs| - 1].promptTokens
      && fs[|fs| - 2].completionTokens == fs[|fs| - 1].completionTokens
  {
    Framing(items, None, freshId);
  }

  /** The start frame's id is the first item's: later items' thread ids do
      not change it. */
  lemma MessageIdFixedAtFirstItem(items: seq<Item>, more: seq<Item>, failure: Option<string>, freshId: string)
    requires |items| > 0
    ensures Encode(items + more, failure, freshId)[0] == Encode(items, failure, freshId)[0]
  {
    Framing(items + more, failure, freshId);
    Framing(items, failure, freshId);
    assert (items + more)[0] == items[0];
  }

  /** A short script: a text delta "Hi", a tool call, and its result. */
  const ScriptCall := ToolCall("call_1", "search", "{}")
  const Script := [
    Item(AiChunk("Hi", [], map[]), None),
    Item(AiChunk("", [ScriptCall], map[]), None),
    Item(ToolResult(None, "call_1", "found"), None)]

  /** The script streams start, text, tool call, tool result, step end,
      message end; raised at the end instead, the step end becomes the error
      frame and the message end is still last. */
  lemma ScriptFrames(freshId: string)
    ensures Encode(Script, None, freshId) ==
      [Start(freshId), TextDelta("Hi"), ToolCallFrame("call_1", "search", "{}"),
       TextDelta("found"), ToolResultFrame(None, "found"), FinishStep(0, 0), FinishMessage(0, 0)]
    ensures Encode(Script, Some("boom"), freshId) ==
      [Start(freshId), TextDelta("Hi"), ToolCallFrame("call_1", "search", "{}"),
       TextDelta("found"), ToolResultFrame(None, "found"), ErrorFrame("boom"), FinishMessage(0, 0)]
  {
    ScriptBody();
    ScriptTotals();
    assert StartFrames(Script, freshId) == [Start(freshId)];
  }

  lemma ScriptBody()
    ensures BodyFrames(Script) ==
      [TextDelta("Hi"), ToolCallFrame("call_1", "search", "{}"), TextDelta("found"), ToolResultFrame(None, "found")]
  {
    assert Script[..2][..1] == Script[..1];
    assert Script[..3][..2] == Script[..2];
    assert Script[..1][..0] == [];
    assert ToolCallFrames([ScriptCall]) == [ToolCallFrame("call_1", "search", "{}")];
    assert BodyFrames(Script[..1]) == [TextDelta("Hi")];
    assert BodyFrames(Script[..2]) == [TextDelta("Hi"), ToolCallFrame("call_1", "search", "{}")];
    assert Script[..3] == Script;
  }

  lemma ScriptTotals()
    ensures PromptTotal(Script) == 0 && CompletionTotal(Script) == 0
  {
    assert Script[..2][..1] == Script[..1];
    assert Script[..3][..2] == Script[..2];
    assert Script[..1][..0] == [];
    assert Script[..3] == Script;
    assert PromptTotal(Script[..1]) == 0 && CompletionTotal(Script[..1]) == 0;
    assert PromptTotal(Script[..2]) == 0 && CompletionTotal(Script[..2]) == 0;
  }
}
