/** Incremental assembly of tool and thinking blocks from an Anthropic-style stream. */
module AnthropicStream {
  import opened Wrappers

  datatype Event =
    | ToolStart(index: int, id: string, name: string, input: string)
    | ThinkingStart(index: int, thinking: string, signature: string)
    | OtherStart(index: int)
    | InputJsonDelta(index: int, partial: string)
    | ThinkingDelta(index: int, thinking: string)
    | SignatureDelta(index: int, signature: string)
    | TextDelta(index: int, text: string)
    | Stop(index: int)

  /** A tool call's arguments decode from `json`, or from `input` when that yields an empty record. */
  datatype ToolBlock = ToolBlock(id: string, name: string, input: string, json: string)

  datatype ThinkingBlock = ThinkingBlock(thinking: string, signature: string)

  datatype Chunk =
    | Text(text: string)
    | Reasoning(delta: string)
    | Thought(block: ThinkingBlock)
    | ToolCall(call: ToolBlock)

  datatype Blocks = Blocks(tools: map<int, ToolBlock>, thinking: map<int, ThinkingBlock>)

  const NO_BLOCKS := Blocks(map[], map[])

  function Slot(m: map<int, ThinkingBlock>, i: int): ThinkingBlock {
    if i in m then m[i] else ThinkingBlock("", "")
  }

  function StepBlocks(b: Blocks, e: Event): Blocks {
    match e
    case ToolStart(i, id, name, input) => b.(tools := b.tools[i := ToolBlock(id, name, input, "")])
    case ThinkingStart(i, t, s) =>
      var slot := Slot(b.thinking, i);
      b.(thinking := b.thinking[i := ThinkingBlock(slot.thinking + t, slot.signature + s)])
    case OtherStart(_) => b
    case InputJsonDelta(i, p) =>
      var block := if i in b.tools then b.tools[i] else ToolBlock("", "", "", "");
      b.(tools := b.tools[i := block.(json := block.json + p)])
    case ThinkingDelta(i, t) =>
      if t == "" then b
      else b.(thinking := b.thinking[i := Slot(b.thinking, i).(thinking := Slot(b.thinking, i).thinking + t)])
    case SignatureDelta(i, s) =>
      b.(thinking := b.thinking[i := Slot(b.thinking, i).(signature := Slot(b.thinking, i).signature + s)])
    case TextDelta(_, _) => b
    case Stop(i) =>
      if i in b.thinking then b.(thinking := b.thinking - {i}) else b.(tools := b.tools - {i})
  }

  function StepChunk(b: Blocks, e: Event): Option<Chunk> {
    match e
    case ThinkingDelta(_, t) => if t == "" then None else Some(Reasoning(t))
    case TextDelta(_, t) => if t == "" then None else Some(Text(t))
    case Stop(i) =>
      if i in b.thinking then Some(Thought(b.thinking[i]))
      else if i in b.tools then Some(ToolCall(b.tools[i])) else None
    case _ => None
  }

  function BlocksAfter(es: seq<Event>): Blocks {
    if es == [] then NO_BLOCKS else StepBlocks(BlocksAfter(es[..|es| - 1]), es[|es| - 1])
  }

  function ChunksOf(es: seq<Event>): seq<Chunk> {
    if es == [] then []
    else
      var chunk := StepChunk(BlocksAfter(es[..|es| - 1]), es[|es| - 1]);
      ChunksOf(es[..|es| - 1]) + if chunk.Some? then [chunk.value] else []
  }

  class BlockBuffers {
    var tools: map<int, ToolBlock>
    var thinking: map<int, ThinkingBlock>

    ghost function Value(): Blocks reads this { Blocks(tools, thinking) }

    constructor ()
      ensures Value() == NO_BLOCKS
    {
      tools, thinking := map[], map[];
    }

    method ThinkingSlot(i: int) returns (slot: ThinkingBlock)
      modifies this`thinking
      ensures slot == Slot(old(thinking), i) && thinking == old(thinking)[i := slot]
    {
      if i !in thinking { thinking := thinking[i := ThinkingBlock("", "")]; }
      slot := thinking[i];
    }

    method StartChunk(e: Event)
      requires e.ToolStart? || e.ThinkingStart? || e.OtherStart?
      modifies this
      ensures Value() == StepBlocks(old(Value()), e)
    {
      if e.ThinkingStart? {
        var slot := ThinkingSlot(e.index);
        thinking := thinking[e.index := slot.(thinking := slot.thinking + e.thinking)];
        thinking := thinking[e.index := thinking[e.index].(signature := slot.signature + e.signature)];
        return;
      }
      if !e.ToolStart? { return; }
      tools := tools[e.index := ToolBlock(e.id, e.name, e.input, "")];
    }

    method DeltaChunk(e: Event) returns (chunk: Option<Chunk>)
      requires e.InputJsonDelta? || e.ThinkingDelta? || e.SignatureDelta? || e.TextDelta?
      modifies this
      ensures Value() == StepBlocks(old(Value()), e) && chunk == StepChunk(old(Value()), e)
    {
      if e.InputJsonDelta? {
        if e.index !in tools { tools := tools[e.index := ToolBlock("", "", "", "")]; }
        tools := tools[e.index := tools[e.index].(json := tools[e.index].json + e.partial)];
        return None;
      }
      if e.SignatureDelta? {
        var slot := ThinkingSlot(e.index);
        thinking := thinking[e.index := slot.(signature := slot.signature + e.signature)];
        return None;
      }
      if e.ThinkingDelta? && e.thinking != "" {
        var slot := ThinkingSlot(e.index);
        thinking := thinking[e.index := slot.(thinking := slot.thinking + e.thinking)];
        return Some(Reasoning(e.thinking));
      }
      if e.TextDelta? && e.text != "" { return Some(Text(e.text)); }
      chunk := None;
    }

    method StopChunk(i: int) returns (chunk: Option<Chunk>)
      modifies this
      ensures Value() == StepBlocks(old(Value()), Stop(i)) && chunk == StepChunk(old(Value()), Stop(i))
    {
      if i in thinking {
        chunk := Some(Thought(thinking[i]));
        thinking := thinking - {i};
        return;
      }
      if i !in tools {
        assert tools - {i} == tools;
        return None;
      }
      chunk := Some(ToolCall(tools[i]));
      tools := tools - {i};
    }
  }

  method ParseStream(es: seq<Event>) returns (chunks: seq<Chunk>)
    ensures chunks == ChunksOf(es)
  {
    var buffers := new BlockBuffers();
    chunks := [];
    for k := 0 to |es|
      invariant chunks == ChunksOf(es[..k]) && buffers.Value() == BlocksAfter(es[..k])
    {
      assert es[..k + 1][..k] == es[..k];
      var chunk: Option<Chunk> := None;
      if es[k].Stop? {
        chunk := buffers.StopChunk(es[k].index);
      } else if es[k].ToolStart? || es[k].ThinkingStart? || es[k].OtherStart? {
        buffers.StartChunk(es[k]);
      } else {
        chunk := buffers.DeltaChunk(es[k]);
      }
      if chunk.Some? { chunks := chunks + [chunk.value]; }
    }
    assert es[..|es|] == es;
  }

  // --- blocks, stated without buffers --------------------------------------------------------------

  predicate Starts(e: Event) { e.ToolStart? || e.ThinkingStart? || e.OtherStart? }

  /** The events of the block open at index `i`, its start first; None when no block is open there. */
  function OpenBlock(es: seq<Event>, i: int): (r: Option<seq<Event>>)
    ensures r.Some? ==> r.value != [] && Starts(r.value[0])
  {
    if es == [] then None
    else
      var before, e := OpenBlock(es[..|es| - 1], i), es[|es| - 1];
      if e.index != i then before
      else if Starts(e) then Some([e])
      else if e.Stop? || before.None? then None
      else Some(before.value + [e])
  }

  /** The delta kinds that belong to a block. */
  predicate Fits(start: Event, e: Event) {
    match e
    case InputJsonDelta(_, _) => start.ToolStart?
    case ThinkingDelta(_, _) => start.ThinkingStart?
    case SignatureDelta(_, _) => start.ThinkingStart?
    case TextDelta(_, _) => start.OtherStart?
    case Stop(_) => true
    case _ => false
  }

  /** Blocks open at free indices; deltas and stops concern an open block of their kind. */
  ghost predicate WellFormed(es: seq<Event>) {
    es == [] ||
    var init, e := es[..|es| - 1], es[|es| - 1];
    && WellFormed(init)
    && if Starts(e) then OpenBlock(init, e.index).None?
       else OpenBlock(init, e.index).Some? && Fits(OpenBlock(init, e.index).value[0], e)
  }

  function JoinedJson(block: seq<Event>): string {
    if block == [] then ""
    else
      var e := block[|block| - 1];
      JoinedJson(block[..|block| - 1]) + if e.InputJsonDelta? then e.partial else ""
  }

  function JoinedThinking(block: seq<Event>): string {
    if block == [] then ""
    else
      var e := block[|block| - 1];
      JoinedThinking(block[..|block| - 1]) + if e.ThinkingStart? || e.ThinkingDelta? then e.thinking else ""
  }

  function JoinedSignature(block: seq<Event>): string {
    if block == [] then ""
    else
      var e := block[|block| - 1];
      JoinedSignature(block[..|block| - 1]) + if e.ThinkingStart? || e.SignatureDelta? then e.signature else ""
  }

  function ToolOf(block: seq<Event>): ToolBlock
    requires block != [] && block[0].ToolStart?
  {
    ToolBlock(block[0].id, block[0].name, block[0].input, JoinedJson(block))
  }

  function ThinkingOf(block: seq<Event>): ThinkingBlock {
    ThinkingBlock(JoinedThinking(block), JoinedSignature(block))
  }

  /** The buffers hold exactly the open tool and thinking blocks, each assembled from its own events. */
  ghost predicate HoldsAt(b: Blocks, open: Option<seq<Event>>, i: int)
    requires open.Some? ==> open.value != []
  {
    && (i in b.tools <==> open.Some? && open.value[0].ToolStart?)
    && (i in b.tools ==> b.tools[i] == ToolOf(open.value))
    && (i in b.thinking <==> open.Some? && open.value[0].ThinkingStart?)
    && (i in b.thinking ==> b.thinking[i] == ThinkingOf(open.value))
  }

  lemma JoinsSnoc(block: seq<Event>, e: Event)
    ensures JoinedJson(block + [e]) == JoinedJson(block) + if e.InputJsonDelta? then e.partial else ""
    ensures JoinedThinking(block + [e]) == JoinedThinking(block) + if e.ThinkingStart? || e.ThinkingDelta? then e.thinking else ""
    ensures JoinedSignature(block + [e]) == JoinedSignature(block) + if e.ThinkingStart? || e.SignatureDelta? then e.signature else ""
  {
    assert (block + [e])[..|block|] == block;
  }

  lemma {:induction false} BuffersAreOpenBlocks(es: seq<Event>, i: int)
    requires WellFormed(es)
    ensures HoldsAt(BlocksAfter(es), OpenBlock(es, i), i)
  {
    if es != [] {
      var init, e := es[..|es| - 1], es[|es| - 1];
      BuffersAreOpenBlocks(init, i);
      JoinsSnoc([], e);
      if OpenBlock(init, i).Some? { JoinsSnoc(OpenBlock(init, i).value, e); }
      assert [] + [e] == [e];
    }
  }

  function Closed(open: Option<seq<Event>>): seq<Chunk>
    requires open.Some? ==> open.value != []
  {
    if open.None? then []
    else if open.value[0].ToolStart? then [ToolCall(ToolOf(open.value))]
    else if open.value[0].ThinkingStart? then [Thought(ThinkingOf(open.value))]
    else []
  }

  /** What the stream says, without buffers: non-empty text as it arrives, a finished block at its stop. */
  function Spoken(es: seq<Event>): seq<Chunk> {
    if es == [] then []
    else
      var init, e := es[..|es| - 1], es[|es| - 1];
      Spoken(init) +
      match e
      case Stop(i) => Closed(OpenBlock(init, i))
      case TextDelta(_, t) => if t == "" then [] else [Text(t)]
      case ThinkingDelta(_, t) => if t == "" then [] else [Reasoning(t)]
      case _ => []
  }

  /** Each tool or thinking block yields exactly one chunk, at its stop, joined from its own deltas whatever is interleaved. */
  lemma {:induction false} OneChunkPerBlock(es: seq<Event>)
    requires WellFormed(es)
    ensures ChunksOf(es) == Spoken(es)
  {
    if es != [] {
      var init, e := es[..|es| - 1], es[|es| - 1];
      OneChunkPerBlock(init);
      BuffersAreOpenBlocks(init, e.index);
    }
  }
}
