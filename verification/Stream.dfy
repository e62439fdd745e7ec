/** Streaming: the mock provider that lowers a response into events
    (llm/mock_provider.go) and the loop's reassembly of the events into a
    response (loop/turn_executor.go). */
module Stream {
  import opened Options
  import opened Sequences
  import opened Chat

  /** The five event types, each with its decoded payload. */
  datatype StreamEvent =
    | MessageStart(id: string, model: string)
    | ContentDelta(text: string)
    | ToolCallDelta(toolUseId: string, toolName: string, input: string)
    | MessageDelta(stopReason: string, usage: Usage)
    | MessageEnd(finalUsage: Usage)

  // ----- lowering a response into events -----

  function ChunkSize(chunkSize: int): (n: nat)
    ensures n > 0
  {
    if chunkSize <= 0 then 1 else chunkSize
  }

  function Chunks(s: string, chunkSize: int): seq<string>
    decreases |s|
  {
    var n := ChunkSize(chunkSize);
    if s == "" then [] else if |s| <= n then [s] else [s[..n]] + Chunks(s[n..], chunkSize)
  }

  function Concat(parts: seq<string>): string {
    if parts == [] then "" else Concat(parts[..|parts| - 1]) + parts[|parts| - 1]
  }

  /** splitRunes. */
  method SplitRunes(s: string, chunkSize: int) returns (out: seq<string>)
    ensures out == Chunks(s, chunkSize)
  {
    out := [];
    if s == "" { return; }
    var n := ChunkSize(chunkSize);
    var i := 0;
    while i < |s|
      invariant 0 <= i <= |s|
      invariant out + Chunks(s[i..], chunkSize) == Chunks(s, chunkSize)
      decreases |s| - i
    {
      var end := i + n;
      if end > |s| { end := |s|; }
      var rest := s[i..];
      assert s[i..end] == rest[..end - i] && s[end..] == rest[end - i..];
      if |rest| <= n {
        assert rest[..end - i] == rest && rest[end - i..] == "";
      }
      assert Chunks(rest, chunkSize) == [s[i..end]] + Chunks(s[end..], chunkSize);
      out := out + [s[i..end]];
      i := end;
    }
  }

  lemma {:induction false} ConcatAppend(a: seq<string>, b: seq<string>)
    ensures Concat(a + b) == Concat(a) + Concat(b)
  {
    if b == [] {
      assert a + b == a;
    } else {
      ConcatAppend(a, b[..|b| - 1]);
      assert (a + b)[..|a + b| - 1] == a + b[..|b| - 1];
    }
  }

  lemma ConcatOne(part: string)
    ensures Concat([part]) == part
  {
    assert [part][..0] == [];
  }

  lemma {:induction false} ChunksRunTogether(s: string, chunkSize: int)
    ensures Concat(Chunks(s, chunkSize)) == s
    decreases |s|
  {
    hide Concat;
    var n := ChunkSize(chunkSize);
    if s == "" {
      NothingConcat();
    } else if |s| <= n {
      ConcatOne(s);
    } else {
      ChunksRunTogether(s[n..], chunkSize);
      ConcatAppend([s[..n]], Chunks(s[n..], chunkSize));
      ConcatOne(s[..n]);
      assert s == s[..n] + s[n..];
    }
  }

  lemma NothingConcat()
    ensures Concat([]) == ""
  {
  }

  /** Every chunk is non-empty and at most n long, and only the last one may be shorter. */
  predicate CutEvery(n: nat, chunks: seq<string>) {
    && (forall i :: 0 <= i < |chunks| ==> 0 < |chunks[i]| <= n)
    && forall i :: 0 <= i < |chunks| - 1 ==> |chunks[i]| == n
  }

  lemma CutOneMore(n: nat, head: string, chunks: seq<string>)
    requires CutEvery(n, chunks) && 0 < |head| == n
    ensures CutEvery(n, [head] + chunks)
  {
  }

  lemma {:induction false} ChunksAreEven(s: string, chunkSize: int)
    ensures CutEvery(ChunkSize(chunkSize), Chunks(s, chunkSize))
    decreases |s|
  {
    var n := ChunkSize(chunkSize);
    if |s| > n {
      ChunksAreEven(s[n..], chunkSize);
      CutOneMore(n, s[..n], Chunks(s[n..], chunkSize));
      hide CutEvery;
    }
  }

  /** The chunks of a text run together to the text; every chunk is non-empty and
      at most the chunk size, and only the last one may be shorter. */
  lemma ChunksCoverText(s: string, chunkSize: int)
    ensures Concat(Chunks(s, chunkSize)) == s
    ensures CutEvery(if chunkSize > 0 then chunkSize else 1, Chunks(s, chunkSize))
  {
    hide Chunks, Concat, CutEvery;
    ChunksRunTogether(s, chunkSize);
    ChunksAreEven(s, chunkSize);
  }

  function Deltas(chunks: seq<string>): seq<StreamEvent> {
    seq(|chunks|, i requires 0 <= i < |chunks| => ContentDelta(chunks[i]))
  }

  /** A missing input is encoded as the JSON literal null. */
  function EncodeInput(input: string): string {
    if input == "" then "null" else input
  }

  function LowerBlock(block: ContentBlock, chunkSize: int): seq<StreamEvent> {
    match block
    case Text(text) => Deltas(Chunks(text, chunkSize))
    case ToolUse(id, name, input) => [ToolCallDelta(id, name, EncodeInput(input))]
    case ToolResult(_, _, _) => []
  }

  function LowerBlocks(content: seq<ContentBlock>, chunkSize: int): seq<StreamEvent> {
    if content == [] then []
    else LowerBlocks(content[..|content| - 1], chunkSize) + LowerBlock(content[|content| - 1], chunkSize)
  }

  function Lowered(resp: ChatResponse, chunkSize: int): seq<StreamEvent> {
    [MessageStart(resp.id, resp.model)] + LowerBlocks(resp.content, chunkSize)
    + [MessageDelta(resp.stopReason, resp.usage), MessageEnd(resp.usage)]
  }

  /** The content.delta events of one text block. */
  method TextDeltas(text: string, chunkSize: int) returns (events: seq<StreamEvent>)
    ensures events == Deltas(Chunks(text, chunkSize))
  {
    var chunks := SplitRunes(text, chunkSize);
    events := [];
    for c := 0 to |chunks|
      invariant events == Deltas(chunks)[..c]
    {
      events := events + [ContentDelta(chunks[c])];
    }
  }

  /** The events of one content block. */
  method BlockEvents(block: ContentBlock, chunkSize: int) returns (events: seq<StreamEvent>)
    ensures events == LowerBlock(block, chunkSize)
  {
    match block {
      case Text(text) => events := TextDeltas(text, chunkSize);
      case ToolUse(id, name, input) => events := [ToolCallDelta(id, name, EncodeInput(input))];
      case ToolResult(_, _, _) => events := [];
    }
  }

  /** lowerToStream. */
  method LowerToStream(resp: ChatResponse, chunkSize: int) returns (events: seq<StreamEvent>)
    ensures events == Lowered(resp, chunkSize)
  {
    hide LowerBlock;
    events := [MessageStart(resp.id, resp.model)];
    ghost var lowered := [];
    for b := 0 to |resp.content|
      invariant events == [MessageStart(resp.id, resp.model)] + lowered
      invariant lowered == LowerBlocks(resp.content[..b], chunkSize)
    {
      var blockEvents := BlockEvents(resp.content[b], chunkSize);
      assert resp.content[..b + 1][..b] == resp.content[..b];
      events := events + blockEvents;
      lowered := lowered + blockEvents;
    }
    assert resp.content[..|resp.content|] == resp.content;
    events := events + [MessageDelta(resp.stopReason, resp.usage)];
    events := events + [MessageEnd(resp.usage)];
  }

  // ----- reassembling events into a response -----

  /** The accumulators of drainStream. */
  datatype Acc = Acc(id: string, model: string, stopReason: string, usage: Usage,
                     text: string, calls: seq<ContentBlock>, current: Option<ContentBlock>)

  const EMPTY_ACC := Acc("", "", "", Usage(0, 0, 0, 0, 0.0), "", [], None)

  function Pending(current: Option<ContentBlock>): seq<ContentBlock> {
    match current case None => [] case Some(call) => [call]
  }

  function Absorb(acc: Acc, ev: StreamEvent): Acc {
    match ev
    case MessageStart(id, model) => acc.(id := id, model := model)
    case ContentDelta(text) => acc.(text := acc.text + text)
    case ToolCallDelta(id, name, input) =>
      if name != "" then
        acc.(calls := acc.calls + Pending(acc.current), current := Some(ToolUse(id, name, input)))
      else if acc.current.Some? && acc.current.value.ToolUse? && input != "" then
        acc.(current := Some(acc.current.value.(input := acc.current.value.input + input)))
      else acc
    case MessageDelta(stopReason, usage) =>
      acc.(stopReason := if stopReason != "" then stopReason else acc.stopReason, usage := usage)
    case MessageEnd(usage) => acc.(usage := usage)
  }

  function Assemble(acc: Acc): ChatResponse {
    ChatResponse(acc.id, acc.model, acc.stopReason,
                 (if acc.text != "" then [Text(acc.text)] else []) + acc.calls + Pending(acc.current),
                 acc.usage)
  }

  /** A read error ends the stream; what was gathered so far is used if there is a
      stop reason, some text, or a tool call that another one already flushed. */
  function Interrupted(acc: Acc): LLMResult {
    if acc.stopReason == "" && acc.text == "" && acc.calls == [] then CallFailed(false) else Reply(Assemble(acc))
  }

  /** Draining from event i on.  ctxDone(i) says whether the context is done when
      the i-th event is asked for. */
  function DrainFrom(events: seq<StreamEvent>, ctxDone: nat -> bool, i: nat, acc: Acc): LLMResult
    decreases |events| - i
  {
    if ctxDone(i) || i >= |events| then Interrupted(acc)
    else if events[i].MessageEnd? then Reply(Assemble(Absorb(acc, events[i])))
    else DrainFrom(events, ctxDone, i + 1, Absorb(acc, events[i]))
  }

  class StreamReader {
    var events: seq<StreamEvent>
    var cursor: nat
    var closed: bool

    constructor (events: seq<StreamEvent>)
      ensures this.events == events && cursor == 0 && !closed
    {
      this.events, cursor, closed := events, 0, false;
    }

    /** mockStreamReader.Next: an event, or None for any of its three errors. */
    method Next(ctxDone: bool) returns (ev: Option<StreamEvent>)
      modifies this`cursor
      ensures ev == if ctxDone || closed || old(cursor) >= |events| then None else Some(events[old(cursor)])
      ensures cursor == if ev.Some? then old(cursor) + 1 else old(cursor)
    {
      if ctxDone { return None; }
      if closed { return None; }
      if cursor >= |events| { return None; }
      ev := Some(events[cursor]);
      cursor := cursor + 1;
    }

    method Close()
      modifies this`closed
      ensures closed
    {
      closed := true;
    }
  }

  lemma DrainOne(events: seq<StreamEvent>, ctxDone: nat -> bool, i: nat, acc: Acc)
    ensures DrainFrom(events, ctxDone, i, acc) ==
            if ctxDone(i) || i >= |events| then Interrupted(acc)
            else if events[i].MessageEnd? then Reply(Assemble(Absorb(acc, events[i])))
            else DrainFrom(events, ctxDone, i + 1, Absorb(acc, events[i]))
  {
  }

  /** drainStream. */
  method DrainStream(reader: StreamReader, ctxDone: nat -> bool) returns (r: LLMResult)
    requires !reader.closed && reader.cursor == 0
    modifies reader`cursor
    ensures r == DrainFrom(reader.events, ctxDone, 0, EMPTY_ACC)
  {
    hide DrainFrom;
    var acc := EMPTY_ACC;
    while true
      invariant reader.cursor <= |reader.events|
      invariant DrainFrom(reader.events, ctxDone, reader.cursor, acc) == DrainFrom(reader.events, ctxDone, 0, EMPTY_ACC)
      decreases |reader.events| - reader.cursor
    {
      DrainOne(reader.events, ctxDone, reader.cursor, acc);
      var ev := reader.Next(ctxDone(reader.cursor));
      match ev {
        case None =>
          if acc.stopReason != "" { break; }
          if acc.text == "" && acc.calls == [] { return CallFailed(false); }
          break;
        case Some(e) =>
          match e {
            case MessageStart(id, model) =>
              acc := acc.(id := id, model := model);
            case ContentDelta(text) =>
              acc := acc.(text := acc.text + text);
            case ToolCallDelta(id, name, input) =>
              if name != "" {
                assert acc.calls + [] == acc.calls;
                if acc.current.Some? {
                  acc := acc.(calls := acc.calls + [acc.current.value]);
                }
                acc := acc.(current := Some(ToolUse(id, name, input)));
              } else if acc.current.Some? && acc.current.value.ToolUse? && input != "" {
                acc := acc.(current := Some(acc.current.value.(input := acc.current.value.input + input)));
              }
            case MessageDelta(stopReason, usage) =>
              if stopReason != "" {
                acc := acc.(stopReason := stopReason);
              }
              acc := acc.(usage := usage);
            case MessageEnd(usage) =>
              acc := acc.(usage := usage);
              break;
          }
      }
    }
    var content := [];
    if acc.text != "" {
      content := content + [Text(acc.text)];
    }
    if acc.current.Some? {
      acc := acc.(calls := acc.calls + [acc.current.value], current := None);
    }
    content := content + acc.calls;
    r := Reply(ChatResponse(acc.id, acc.model, acc.stopReason, content, acc.usage));
  }

  /** MockProvider: replays a queue of responses, in either mode. */
  class MockProvider {
    var queue: seq<ChatResponse>
    const streamChunkSize: int

    constructor (streamChunkSize: int)
      ensures queue == [] && this.streamChunkSize == if streamChunkSize > 0 then streamChunkSize else 0
    {
      this.streamChunkSize := if streamChunkSize > 0 then streamChunkSize else 0;
      queue := [];
    }

    /** Queue; a nil response is ignored. */
    method Queue(resp: Option<ChatResponse>)
      modifies this`queue
      ensures queue == if resp.Some? then old(queue) + [resp.value] else old(queue)
    {
      if resp.None? { return; }
      queue := queue + [resp.value];
    }

    method Complete(ctxDone: bool) returns (r: LLMResult)
      modifies this`queue
      ensures ctxDone || old(queue) == [] ==> r == CallFailed(false) && queue == old(queue)
      ensures !ctxDone && old(queue) != [] ==> r == Reply(old(queue)[0]) && queue == old(queue)[1..]
    {
      if ctxDone { return CallFailed(false); }
      if |queue| == 0 { return CallFailed(false); }
      r := Reply(queue[0]);
      queue := queue[1..];
    }

    method Stream(ctxDone: bool) returns (reader: StreamReader?)
      modifies this`queue
      ensures ctxDone || old(queue) == [] ==> reader == null && queue == old(queue)
      ensures !ctxDone && old(queue) != [] ==>
                && reader != null && fresh(reader) && !reader.closed && reader.cursor == 0
                && reader.events == Lowered(old(queue)[0], streamChunkSize)
                && queue == old(queue)[1..]
    {
      if ctxDone { return null; }
      if |queue| == 0 { return null; }
      var resp := queue[0];
      queue := queue[1..];
      var events := LowerToStream(resp, streamChunkSize);
      reader := new StreamReader(events);
    }
  }

  // ----- draining a lowered response -----

  function AbsorbAll(acc: Acc, events: seq<StreamEvent>): Acc {
    if events == [] then acc else Absorb(AbsorbAll(acc, events[..|events| - 1]), events[|events| - 1])
  }

  lemma {:induction false} AbsorbAllAppend(acc: Acc, a: seq<StreamEvent>, b: seq<StreamEvent>)
    ensures AbsorbAll(acc, a + b) == AbsorbAll(AbsorbAll(acc, a), b)
  {
    if b == [] {
      assert a + b == a;
    } else {
      AbsorbAllAppend(acc, a, b[..|b| - 1]);
      assert (a + b)[..|a + b| - 1] == a + b[..|b| - 1];
    }
  }

  /** With a live context, draining absorbs every event before the first message.end. */
  lemma {:induction false} DrainPrefix(events: seq<StreamEvent>, ctxDone: nat -> bool, i: nat, acc: Acc)
    requires i <= |events|
    requires forall k :: 0 <= k < i ==> !events[k].MessageEnd? && !ctxDone(k)
    ensures DrainFrom(events, ctxDone, 0, acc) == DrainFrom(events, ctxDone, i, AbsorbAll(acc, events[..i]))
  {
    if i > 0 {
      DrainPrefix(events, ctxDone, i - 1, acc);
      assert events[..i][..i - 1] == events[..i - 1];
    }
  }

  lemma {:induction false} AbsorbDeltas(acc: Acc, chunks: seq<string>)
    ensures AbsorbAll(acc, Deltas(chunks)) == acc.(text := acc.text + Concat(chunks))
  {
    if chunks != [] {
      AbsorbDeltas(acc, chunks[..|chunks| - 1]);
      assert Deltas(chunks)[..|chunks| - 1] == Deltas(chunks[..|chunks| - 1]);
    }
  }

  /** The tool calls gathered so far, flushed or not. */
  function Gathered(acc: Acc): seq<ContentBlock> {
    acc.calls + Pending(acc.current)
  }

  ghost predicate Named(content: seq<ContentBlock>) {
    forall b :: b in content && b.ToolUse? ==> b.name != ""
  }

  /** The content is text and tool calls only, and every call can be told apart from a
      continuation of the one before it and carries an input. */
  ghost predicate Streamable(content: seq<ContentBlock>) {
    forall b :: b in content ==> !b.ToolResult? && (b.ToolUse? ==> b.name != "" && b.input != "")
  }

  function Sent(use: ContentBlock): ContentBlock
    requires use.ToolUse?
  {
    use.(input := if use.input == "" then "null" else use.input)
  }

  lemma ToolUsesMembers(content: seq<ContentBlock>)
    ensures forall b :: b in ToolUses(content) <==> b in content && b.ToolUse?
    ensures forall b :: b in Others(content) <==> b in content && b.ToolResult?
  {
    if content != [] {
      ToolUsesMembers(content[..|content| - 1]);
      assert content == content[..|content| - 1] + [content[|content| - 1]];
    }
  }

  /** What absorbing a lowered message leaves in the accumulators: all its text; one
      call for each named tool_use, never fewer than the message has only if all are
      named; and then those very calls, inputs as they were sent. */
  lemma {:induction false} AbsorbLowered(content: seq<ContentBlock>, chunkSize: int, acc: Acc)
    requires acc.text == "" && acc.calls == [] && acc.current == None
    ensures var a := AbsorbAll(acc, LowerBlocks(content, chunkSize));
            && a == acc.(text := TextOf(content), calls := a.calls, current := a.current)
            && (a.current.Some? ==> a.current.value.ToolUse?)
            && Gathers(ToolUses(content), Named(content), Gathered(a))
  {
    hide AbsorbAll, LowerBlocks, LowerBlock, Gathers, Named, Gathered, ToolUses, TextOf;
    if content == [] {
      NothingAbsorbed(chunkSize, acc);
    } else {
      var front, last := content[..|content| - 1], content[|content| - 1];
      assert content == front + [last];
      AbsorbLowered(front, chunkSize, acc);
      AbsorbAllAppend(acc, LowerBlocks(front, chunkSize), LowerBlock(last, chunkSize));
      LastBlock(front, last, chunkSize);
      var b := AbsorbAll(acc, LowerBlocks(front, chunkSize));
      AbsorbLoweredLast(front, last, chunkSize, b);
      var a := AbsorbAll(b, LowerBlock(last, chunkSize));
      if last.ToolUse? {
        GathersMore(ToolUses(front), Named(front), Gathered(b), last, Gathered(a));
      }
    }
  }

  lemma NothingAbsorbed(chunkSize: int, acc: Acc)
    requires acc.text == "" && acc.calls == [] && acc.current == None
    ensures AbsorbAll(acc, LowerBlocks([], chunkSize)) == acc && TextOf([]) == "" && Gathered(acc) == []
    ensures Gathers(ToolUses([]), Named([]), [])
  {
  }

  lemma LastBlock(front: seq<ContentBlock>, last: ContentBlock, chunkSize: int)
    ensures LowerBlocks(front + [last], chunkSize) == LowerBlocks(front, chunkSize) + LowerBlock(last, chunkSize)
    ensures TextOf(front + [last]) == TextOf(front) + if last.Text? then last.text else ""
    ensures ToolUses(front + [last]) == if last.ToolUse? then ToolUses(front) + [last] else ToolUses(front)
    ensures Named(front + [last]) <==> Named(front) && (last.ToolUse? ==> last.name != "")
  {
    hide LowerBlock, Named;
    NamedSnoc(front, last);
    assert (front + [last])[..|front|] == front;
    assert ToolUses(front) + [] == ToolUses(front);
  }

  lemma NamedSnoc(front: seq<ContentBlock>, last: ContentBlock)
    ensures Named(front + [last]) <==> Named(front) && (last.ToolUse? ==> last.name != "")
  {
    assert last in front + [last];
  }

  /** One call for each tool_use if all are named, fewer otherwise; in the first case those
      very calls, inputs as they were sent. */
  ghost predicate Gathers(uses: seq<ContentBlock>, named: bool, gathered: seq<ContentBlock>) {
    && |gathered| <= |uses| && (|gathered| == |uses| <==> named)
    && (named ==> forall i :: 0 <= i < |uses| ==> uses[i].ToolUse? && gathered[i] == Sent(uses[i]))
  }

  lemma GathersMore(uses: seq<ContentBlock>, named: bool, gathered: seq<ContentBlock>, last: ContentBlock,
                    gathered': seq<ContentBlock>)
    requires Gathers(uses, named, gathered) && last.ToolUse?
    requires if last.name == "" then |gathered'| == |gathered| else gathered' == gathered + [Sent(last)]
    ensures Gathers(uses + [last], named && last.name != "", gathered')
  {
    hide Sent;
  }

  /** The inductive step of AbsorbLowered: absorbing one more block. */
  lemma AbsorbLoweredLast(front: seq<ContentBlock>, last: ContentBlock, chunkSize: int, b: Acc)
    requires b.current.Some? ==> b.current.value.ToolUse?
    requires b.text == TextOf(front)
    ensures var a := AbsorbAll(b, LowerBlock(last, chunkSize));
            && a == b.(text := TextOf(front) + (if last.Text? then last.text else ""), calls := a.calls,
                       current := a.current)
            && (a.current.Some? ==> a.current.value.ToolUse?)
            && (!last.ToolUse? ==> Gathered(a) == Gathered(b))
            && (last.ToolUse? && last.name == "" ==> |Gathered(a)| == |Gathered(b)|)
            && (last.ToolUse? && last.name != "" ==> Gathered(a) == Gathered(b) + [Sent(last)])
  {
    match last
    case Text(text) =>
      AbsorbDeltas(b, Chunks(text, chunkSize));
      ChunksCoverText(text, chunkSize);
    case ToolUse(id, name, input) =>
      var ev := ToolCallDelta(id, name, EncodeInput(input));
      assert [ev][..0] == [];
      assert AbsorbAll(b, [ev]) == Absorb(AbsorbAll(b, []), ev);
    case ToolResult(_, _, _) =>
  }

  lemma {:induction false} LoweredHasNoEarlyEnd(content: seq<ContentBlock>, chunkSize: int)
    ensures forall k :: 0 <= k < |LowerBlocks(content, chunkSize)| ==> !LowerBlocks(content, chunkSize)[k].MessageEnd?
  {
    if content != [] {
      LoweredHasNoEarlyEnd(content[..|content| - 1], chunkSize);
    }
  }

  /** The context does not end before the stream is read: before its message.end for a response
      with a stop reason, which an early end lets pass, and at all for one without. */
  ghost predicate ReadThrough(resp: ChatResponse, chunkSize: int, ctxDone: nat -> bool) {
    var n := |Lowered(resp, chunkSize)| - 1;
    (forall k :: 0 <= k < n ==> !ctxDone(k)) && (ctxDone(n) ==> resp.stopReason != "")
  }

  /** Draining a lowered response is absorbing its blocks between the framing events. */
  lemma DrainLowered(resp: ChatResponse, chunkSize: int, ctxDone: nat -> bool)
    requires ReadThrough(resp, chunkSize, ctxDone)
    ensures var acc := AbsorbAll(EMPTY_ACC.(id := resp.id, model := resp.model), LowerBlocks(resp.content, chunkSize));
            DrainFrom(Lowered(resp, chunkSize), ctxDone, 0, EMPTY_ACC)
            == Reply(Assemble(Absorb(Absorb(acc, MessageDelta(resp.stopReason, resp.usage)), MessageEnd(resp.usage))))
  {
    var start, blocks := [MessageStart(resp.id, resp.model)], LowerBlocks(resp.content, chunkSize);
    var events := Lowered(resp, chunkSize);
    LoweredHasNoEarlyEnd(resp.content, chunkSize);
    var n := |events| - 1;
    var before := start + blocks;
    assert events[..n] == before + [MessageDelta(resp.stopReason, resp.usage)];
    assert forall k :: 0 <= k < n ==> events[k] == events[..n][k];
    DrainPrefix(events, ctxDone, n, EMPTY_ACC);
    AbsorbAllAppend(EMPTY_ACC, start, blocks);
    assert start[..0] == [];
    assert AbsorbAll(EMPTY_ACC, start) == Absorb(AbsorbAll(EMPTY_ACC, []), start[0]);
    assert events[..n][..n - 1] == before;
    var acc := AbsorbAll(EMPTY_ACC, events[..n]);
    assert acc.usage == resp.usage && (resp.stopReason != "" ==> acc.stopReason == resp.stopReason);
    assert events[n] == MessageEnd(resp.usage) && Absorb(acc, events[n]) == acc;
    assert DrainFrom(events, ctxDone, n, acc) == Reply(Assemble(acc));
  }

  /** The gathered calls are all of the message that is not text, exactly when that is tool
      calls only and each has a name and an input. */
  lemma GatheredExactly(content: seq<ContentBlock>, chunkSize: int, acc: Acc)
    requires acc.text == "" && acc.calls == [] && acc.current == None
    ensures Gathered(AbsorbAll(acc, LowerBlocks(content, chunkSize))) == ToolUses(content) + Others(content)
            <==> Streamable(content)
  {
    hide AbsorbAll, LowerBlocks, ToolUses, Others, TextOf;
    AbsorbLowered(content, chunkSize, acc);
    ToolUsesMembers(content);
    var uses, others := ToolUses(content), Others(content);
    var gathered := Gathered(AbsorbAll(acc, LowerBlocks(content, chunkSize)));
    hide Gathered;
    assert others == [] ==> uses + others == uses;
    assert others != [] ==> others[0] in others;
    if Streamable(content) {
      assert forall i :: 0 <= i < |uses| ==> uses[i] in content;
      assert gathered == uses;
    } else if others != [] {
      assert |uses + others| > |uses|;
    } else if Named(content) {
      var b :| b in content && b.ToolUse? && (b.name == "" || b.input == "");
      var i :| 0 <= i < |uses| && uses[i] == b;
      assert gathered[i] != uses[i];
    }
  }

  lemma SameTail<T>(front: seq<T>, a: seq<T>, b: seq<T>)
    ensures front + a == front + b <==> a == b
  {
    assert (front + a)[|front|..] == a && (front + b)[|front|..] == b;
  }

  /** The stream path rebuilds the merged form of a response exactly when it is text and tool
      calls only and every call has a name and an input; whatever the chunk size and the
      text. */
  lemma StreamRoundTrip(resp: ChatResponse, chunkSize: int, ctxDone: nat -> bool)
    requires ReadThrough(resp, chunkSize, ctxDone)
    ensures DrainFrom(Lowered(resp, chunkSize), ctxDone, 0, EMPTY_ACC) == Reply(resp.(content := Merge(resp.content)))
            <==> Streamable(resp.content)
  {
    hide AbsorbAll, LowerBlocks, ToolUses, Others, TextOf, Lowered, DrainFrom, Streamable, ReadThrough, Named, Pending;
    DrainLowered(resp, chunkSize, ctxDone);
    var init := EMPTY_ACC.(id := resp.id, model := resp.model);
    AbsorbLowered(resp.content, chunkSize, init);
    GatheredExactly(resp.content, chunkSize, init);
    var a := AbsorbAll(init, LowerBlocks(resp.content, chunkSize));
    var text, uses, others := TextBlock(a.text), ToolUses(resp.content), Others(resp.content);
    Regroup(text, a.calls, Pending(a.current));
    Regroup(text, uses, others);
    SameTail(text, Gathered(a), uses + others);
  }

  // ----- a stream cut short -----

  predicate OpensCall(ev: StreamEvent) {
    ev.ToolCallDelta? && ev.toolName != ""
  }

  ghost predicate NoText(events: seq<StreamEvent>) {
    forall k :: 0 <= k < |events| ==> (events[k].ContentDelta? ==> events[k].text == "")
  }

  ghost predicate NoStop(events: seq<StreamEvent>) {
    forall k :: 0 <= k < |events| ==> (events[k].MessageDelta? ==> events[k].stopReason == "")
  }

  ghost predicate NoCall(events: seq<StreamEvent>) {
    forall k :: 0 <= k < |events| ==> !OpensCall(events[k])
  }

  ghost predicate NoSecondCall(events: seq<StreamEvent>) {
    forall k, l :: 0 <= k < l < |events| ==> !(OpensCall(events[k]) && OpensCall(events[l]))
  }

  /** Nothing read so far would be kept: no text, no stop reason, no second tool call. */
  ghost predicate NothingKept(events: seq<StreamEvent>) {
    NoText(events) && NoStop(events) && NoSecondCall(events)
  }

  lemma {:induction false} AbsorbedText(events: seq<StreamEvent>)
    ensures AbsorbAll(EMPTY_ACC, events).text == "" <==> NoText(events)
    ensures AbsorbAll(EMPTY_ACC, events).stopReason == "" <==> NoStop(events)
  {
    if events != [] {
      var front, last := events[..|events| - 1], events[|events| - 1];
      AbsorbedText(front);
      NothingMore(front, last);
      assert events == front + [last];
    }
  }

  lemma NothingMore(front: seq<StreamEvent>, last: StreamEvent)
    ensures NoText(front + [last]) <==> NoText(front) && (last.ContentDelta? ==> last.text == "")
    ensures NoStop(front + [last]) <==> NoStop(front) && (last.MessageDelta? ==> last.stopReason == "")
  {
    var events := front + [last];
    assert events[|front|] == last;
    assert forall k :: 0 <= k < |front| ==> events[k] == front[k];
  }

  lemma {:induction false} AbsorbedCalls(events: seq<StreamEvent>)
    ensures AbsorbAll(EMPTY_ACC, events).current == None <==> NoCall(events)
    ensures NoCall(events) ==> AbsorbAll(EMPTY_ACC, events).calls == []
    ensures AbsorbAll(EMPTY_ACC, events).calls == [] <==> NoSecondCall(events)
  {
    if events != [] {
      var n := |events| - 1;
      var front := events[..n];
      AbsorbedCalls(front);
      assert forall k :: 0 <= k < n ==> events[k] == front[k];
      if OpensCall(events[n]) && !NoCall(front) {
        var k :| 0 <= k < n && OpensCall(front[k]);
        assert OpensCall(events[k]) && OpensCall(events[n]);
      }
    }
  }

  /** What was read of a message: its first j blocks, and of the next one, if it is a text, its
      beginning. */
  ghost predicate FragmentAt(content: seq<ContentBlock>, j: nat, part: string, text: string, calls: seq<ContentBlock>) {
    && j <= |content|
    && (part == "" || (j < |content| && content[j].Text? && part <= content[j].text))
    && text == TextOf(content[..j]) + part
    && Gathers(ToolUses(content[..j]), Named(content[..j]), calls)
  }

  ghost predicate Fragment(content: seq<ContentBlock>, text: string, calls: seq<ContentBlock>) {
    exists j: nat, part :: FragmentAt(content, j, part, text, calls)
  }

  lemma WholeIsFragment(content: seq<ContentBlock>, chunkSize: int, acc: Acc)
    requires acc.text == "" && acc.calls == [] && acc.current == None
    ensures var a := AbsorbAll(acc, LowerBlocks(content, chunkSize));
            && a == acc.(text := a.text, calls := a.calls, current := a.current)
            && FragmentAt(content, |content|, "", a.text, Gathered(a))
  {
    AbsorbLowered(content, chunkSize, acc);
    hide AbsorbAll, LowerBlocks, TextOf, ToolUses, Gathers, Named, Gathered;
    assert content[..|content|] == content;
    var a := AbsorbAll(acc, LowerBlocks(content, chunkSize));
    assert a.text + "" == a.text;
  }

  lemma {:induction false} ConcatPrefix(chunks: seq<string>, m: nat)
    requires m <= |chunks|
    ensures Concat(chunks[..m]) <= Concat(chunks)
  {
    if m == |chunks| {
      assert chunks[..m] == chunks;
    } else {
      var front := chunks[..|chunks| - 1];
      ConcatPrefix(front, m);
      assert front[..m] == chunks[..m];
    }
  }

  /** Part of a text block read after a whole message. */
  lemma TextPart(front: seq<ContentBlock>, text: string, chunkSize: int, m: nat, b: Acc)
    requires m <= |Chunks(text, chunkSize)| && FragmentAt(front, |front|, "", b.text, Gathered(b))
    ensures var a := AbsorbAll(b, Deltas(Chunks(text, chunkSize))[..m]);
            && a == b.(text := a.text)
            && Fragment(front + [Text(text)], a.text, Gathered(a))
  {
    var chunks := Chunks(text, chunkSize);
    assert Deltas(chunks)[..m] == Deltas(chunks[..m]);
    AbsorbDeltas(b, chunks[..m]);
    ConcatPrefix(chunks, m);
    ChunksRunTogether(text, chunkSize);
    hide AbsorbAll, Deltas, Concat, Chunks, Gathers, Named, ToolUses, TextOf;
    var content, part := front + [Text(text)], Concat(chunks[..m]);
    assert content[..|front|] == front && front[..|front|] == front;
    assert TextOf(front) + "" == TextOf(front);
    assert FragmentAt(content, |front|, part, b.text + part, Gathered(b));
  }

  lemma FragmentLonger(content: seq<ContentBlock>, n: nat, text: string, calls: seq<ContentBlock>)
    requires n <= |content| && Fragment(content[..n], text, calls)
    ensures Fragment(content, text, calls)
  {
    hide Gathers, Named, ToolUses, TextOf;
    var front := content[..n];
    var j: nat, part :| FragmentAt(front, j, part, text, calls);
    assert front[..j] == content[..j];
    assert FragmentAt(content, j, part, text, calls);
  }

  /** Whatever part of a lowered message is read, it is a fragment of the message. */
  lemma {:induction false} AbsorbPart(content: seq<ContentBlock>, chunkSize: int, acc: Acc, m: nat)
    requires acc.text == "" && acc.calls == [] && acc.current == None && m <= |LowerBlocks(content, chunkSize)|
    ensures var a := AbsorbAll(acc, LowerBlocks(content, chunkSize)[..m]);
            a == acc.(text := a.text, calls := a.calls, current := a.current) && Fragment(content, a.text, Gathered(a))
  {
    hide AbsorbAll, LowerBlocks, LowerBlock, FragmentAt, Gathered, TextOf, ToolUses, Named;
    var events := LowerBlocks(content, chunkSize);
    WholeIsFragment(content, chunkSize, acc);
    if m == |events| {
      assert events[..m] == events;
    } else {
      NothingLowered(content, chunkSize);
      var n := |content| - 1;
      var front, last := content[..n], content[n];
      assert content == front + [last];
      LastBlock(front, last, chunkSize);
      var before, mine := LowerBlocks(front, chunkSize), LowerBlock(last, chunkSize);
      if m <= |before| {
        AbsorbPart(front, chunkSize, acc, m);
        assert events[..m] == before[..m];
        var a := AbsorbAll(acc, before[..m]);
        FragmentLonger(content, n, a.text, Gathered(a));
      } else {
        CutInText(last, chunkSize, m - |before|);
        WholeIsFragment(front, chunkSize, acc);
        AbsorbAllAppend(acc, before, mine[..m - |before|]);
        assert events[..m] == before + mine[..m - |before|];
        TextPart(front, last.text, chunkSize, m - |before|, AbsorbAll(acc, before));
      }
    }
  }

  lemma NothingLowered(content: seq<ContentBlock>, chunkSize: int)
    requires LowerBlocks(content, chunkSize) != []
    ensures content != []
  {
  }

  /** Only the events of a text can be cut. */
  lemma CutInText(block: ContentBlock, chunkSize: int, m: nat)
    requires 0 < m < |LowerBlock(block, chunkSize)|
    ensures block.Text? && LowerBlock(block, chunkSize) == Deltas(Chunks(block.text, chunkSize))
            && m <= |Chunks(block.text, chunkSize)|
  {
  }

  /** A reply that is a fragment of the response: the same id and model, no stop reason, and a
      fragment of its content. */
  ghost predicate FragmentReply(resp: ChatResponse, reply: ChatResponse) {
    && reply.id == resp.id && reply.model == resp.model && reply.stopReason == ""
    && exists text, calls :: Fragment(resp.content, text, calls) && reply.content == TextBlock(text) + calls
  }

  /** A stream with a stop reason that is not read through gives an error or a fragment without
      stop reason. */
  lemma CutShort(resp: ChatResponse, chunkSize: int, ctxDone: nat -> bool)
    requires resp.stopReason != "" && !ReadThrough(resp, chunkSize, ctxDone)
    ensures var r := DrainFrom(Lowered(resp, chunkSize), ctxDone, 0, EMPTY_ACC);
            r == CallFailed(false) || (r.Reply? && FragmentReply(resp, r.resp))
  {
    var events := Lowered(resp, chunkSize);
    var n := |events| - 1;
    var i := FirstDone(ctxDone, n);
    LoweredHasNoEarlyEnd(resp.content, chunkSize);
    var start, blocks := [MessageStart(resp.id, resp.model)], LowerBlocks(resp.content, chunkSize);
    assert forall k :: 0 <= k < n - 1 ==> events[k] == (start + blocks)[k];
    DrainPrefix(events, ctxDone, i, EMPTY_ACC);
    if i > 0 {
      assert events[..i] == start + blocks[..i - 1];
      AbsorbAllAppend(EMPTY_ACC, start, blocks[..i - 1]);
      AbsorbStart(resp);
      AbsorbPart(resp.content, chunkSize, AbsorbAll(EMPTY_ACC, start), i - 1);
      FragmentAssembles(resp, AbsorbAll(EMPTY_ACC, events[..i]));
    } else {
      assert events[..0] == [];
    }
  }

  lemma AbsorbStart(resp: ChatResponse)
    ensures AbsorbAll(EMPTY_ACC, [MessageStart(resp.id, resp.model)])
         == EMPTY_ACC.(id := resp.id, model := resp.model)
  {
    var start := [MessageStart(resp.id, resp.model)];
    assert start[..0] == [];
    assert AbsorbAll(EMPTY_ACC, start) == Absorb(AbsorbAll(EMPTY_ACC, []), start[0]);
  }

  lemma FragmentAssembles(resp: ChatResponse, a: Acc)
    requires a.id == resp.id && a.model == resp.model && a.stopReason == ""
    requires Fragment(resp.content, a.text, Gathered(a))
    ensures FragmentReply(resp, Assemble(a))
  {
    hide Fragment;
    Regroup(TextBlock(a.text), a.calls, Pending(a.current));
  }

  lemma FirstDone(ctxDone: nat -> bool, n: nat) returns (i: nat)
    requires exists k :: 0 <= k < n && ctxDone(k)
    ensures i < n && ctxDone(i) && forall k :: 0 <= k < i ==> !ctxDone(k)
  {
    i := 0;
    while !ctxDone(i)
      invariant i < n && forall k :: 0 <= k < i ==> !ctxDone(k)
      decreases n - i
    {
      var k :| 0 <= k < n && ctxDone(k);
      i := i + 1;
    }
  }

  /** A context that ends while event i is awaited fails the call only if nothing read
      before it would be kept; otherwise the fragment passes for a whole response. */
  lemma InterruptedExactly(events: seq<StreamEvent>, ctxDone: nat -> bool, i: nat)
    requires i <= |events| && ctxDone(i)
    requires forall k :: 0 <= k < i ==> !ctxDone(k) && !events[k].MessageEnd?
    ensures DrainFrom(events, ctxDone, 0, EMPTY_ACC) == CallFailed(false) <==> NothingKept(events[..i])
    ensures !NothingKept(events[..i]) ==> DrainFrom(events, ctxDone, 0, EMPTY_ACC).Reply?
  {
    DrainPrefix(events, ctxDone, i, EMPTY_ACC);
    AbsorbedText(events[..i]);
    AbsorbedCalls(events[..i]);
  }
}
