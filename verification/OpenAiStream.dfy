/** Incremental assembly of tool calls from an OpenAI-style stream. */
module OpenAiStream {
  import opened Wrappers
  import opened Sequences
  import opened Sorting

  /** A JSON object member: absent, null, or a value. */
  datatype Field = Absent | Null | Present(value: string)

  /** The arguments of a fragment; an object arrives already dumped to text. */
  datatype Arguments = NoArguments | NullArguments | TextArguments(text: string) | ObjectArguments(dumped: string)

  datatype Fragment = Fragment(index: int, id: Field, name: Field, arguments: Arguments)

  datatype Delta = Delta(fragments: seq<Fragment>, reasoning: string, text: string, usage: Option<string>, finishToolCalls: bool)

  datatype Line = NotData | DoneMarker | BadJson | Data(delta: Delta)

  datatype ToolBuffer = ToolBuffer(id: Option<string>, name: Option<string>, arguments: string)

  /** A tool call carries its raw argument text; decoding it is a function of that text. */
  datatype Chunk =
    | Reasoning(text: string)
    | Text(text: string)
    | Usage(data: string)
    | ToolCall(id: Option<string>, name: string, arguments: string)
    | Done

  type Buffers = map<int, ToolBuffer>

  const EMPTY_BUFFER := ToolBuffer(Some(""), Some(""), "")

  function Overwrite(f: Field, current: Option<string>): Option<string> {
    match f case Absent => current case Null => None case Present(v) => Some(v)
  }

  function ArgumentText(a: Arguments): string {
    match a
    case NoArguments => ""
    case NullArguments => ""
    case TextArguments(t) => t
    case ObjectArguments(d) => d
  }

  function Extend(b: ToolBuffer, f: Fragment): ToolBuffer {
    ToolBuffer(Overwrite(f.id, b.id), Overwrite(f.name, b.name), b.arguments + ArgumentText(f.arguments))
  }

  function Absorb(buffers: Buffers, f: Fragment): Buffers {
    buffers[f.index := Extend(if f.index in buffers then buffers[f.index] else EMPTY_BUFFER, f)]
  }

  function AbsorbAll(buffers: Buffers, fs: seq<Fragment>): Buffers {
    if fs == [] then buffers else Absorb(AbsorbAll(buffers, fs[..|fs| - 1]), fs[|fs| - 1])
  }

  predicate Named(b: ToolBuffer) { b.name.Some? && b.name.value != "" }

  function Calls(buffers: Buffers, indices: seq<int>): seq<Chunk>
    requires forall k | 0 <= k < |indices| :: indices[k] in buffers
  {
    if indices == [] then []
    else
      var b := buffers[indices[0]];
      (if Named(b) then [ToolCall(b.id, b.name.value, b.arguments)] else []) + Calls(buffers, indices[1..])
  }

  function Flush(buffers: Buffers): seq<Chunk> { Calls(buffers, Sorted(buffers.Keys)) }

  function PlainChunks(d: Delta): seq<Chunk> {
    (if d.reasoning != "" then [Reasoning(d.reasoning)] else [])
    + (if d.text != "" then [Text(d.text)] else [])
    + (if d.usage.Some? then [Usage(d.usage.value)] else [])
  }

  // --- the streaming loop ------------------------------------------------------------------------

  method EmitNamed(table: Buffers, keys: seq<int>) returns (chunks: seq<Chunk>)
    requires forall k | 0 <= k < |keys| :: keys[k] in table
    ensures chunks == Calls(table, keys)
  {
    chunks := [];
    for k := 0 to |keys|
      invariant chunks + Calls(table, keys[k..]) == Calls(table, keys)
    {
      assert keys[k..][1..] == keys[k + 1..];
      var value := table[keys[k]];
      if value.name.Some? && value.name.value != "" {
        chunks := chunks + [ToolCall(value.id, value.name.value, value.arguments)];
      }
    }
  }

  class ToolChunks {
    var buffers: Buffers

    constructor ()
      ensures buffers == map[]
    {
      buffers := map[];
    }

    method FlushToolCalls() returns (chunks: seq<Chunk>)
      modifies this
      ensures chunks == Flush(old(buffers)) && buffers == map[]
    {
      chunks := EmitNamed(buffers, Sorted(buffers.Keys));
      buffers := map[];
    }

    method AbsorbFragment(f: Fragment)
      modifies this
      ensures buffers == Absorb(old(buffers), f)
    {
      var buffer := if f.index in buffers then buffers[f.index] else EMPTY_BUFFER;
      buffer := buffer.(id := Overwrite(f.id, buffer.id));
      buffer := buffer.(name := Overwrite(f.name, buffer.name));
      match f.arguments {
        case ObjectArguments(dumped) => buffer := buffer.(arguments := buffer.arguments + dumped);
        case TextArguments(text) => buffer := buffer.(arguments := buffer.arguments + text);
        case NoArguments => buffer := buffer.(arguments := buffer.arguments + "");
        case NullArguments => assert buffer.arguments == buffer.arguments + "";
      }
      buffers := buffers[f.index := buffer];
    }

    method ParseStreamLine(d: Delta) returns (chunks: seq<Chunk>)
      modifies this
      ensures buffers == if d.finishToolCalls then map[] else AbsorbAll(old(buffers), d.fragments)
      ensures chunks == PlainChunks(d) + if d.finishToolCalls then Flush(AbsorbAll(old(buffers), d.fragments)) else []
      ensures ChunksOfLine(d, chunks)
    {
      LineOfPlain(d, AbsorbAll(buffers, d.fragments));
      for k := 0 to |d.fragments|
        invariant buffers == AbsorbAll(old(buffers), d.fragments[..k])
      {
        assert d.fragments[..k + 1][..k] == d.fragments[..k];
        AbsorbFragment(d.fragments[k]);
      }
      assert d.fragments[..|d.fragments|] == d.fragments;
      chunks := [];
      if d.reasoning != "" { chunks := chunks + [Reasoning(d.reasoning)]; }
      if d.text != "" { chunks := chunks + [Text(d.text)]; }
      if d.usage.Some? { chunks := chunks + [Usage(d.usage.value)]; }
      assert chunks == PlainChunks(d);
      if d.finishToolCalls {
        var flushed := FlushToolCalls();
        chunks := chunks + flushed;
      } else {
        assert chunks == PlainChunks(d) + [];
      }
    }
  }

  /** All chunks of a response: every line up to the done marker or the end, then the last flush and the done chunk. */
  method HandleStreamResponse(lines: seq<Line>) returns (chunks: seq<Chunk>)
    ensures chunks == Streamed(map[], lines)
  {
    var toolChunks := new ToolChunks();
    chunks := [];
    for k := 0 to |lines|
      invariant chunks + Streamed(toolChunks.buffers, lines[k..]) == Streamed(map[], lines)
    {
      assert lines[k..][1..] == lines[k + 1..];
      if lines[k] == NotData { continue; }
      if lines[k] == DoneMarker {
        var flushed := toolChunks.FlushToolCalls();
        Appended(chunks, flushed, [Done]);
        chunks := chunks + flushed + [Done];
        return;
      }
      if lines[k].Data? {
        var more := toolChunks.ParseStreamLine(lines[k].delta);
        ghost var rest := Streamed(toolChunks.buffers, lines[k + 1..]);
        assert lines[k].delta.finishToolCalls || more == PlainChunks(lines[k].delta);
        Appended(chunks, more, rest);
        chunks := chunks + more;
      }
    }
    var flushed := toolChunks.FlushToolCalls();
    Appended(chunks, flushed, [Done]);
    chunks := chunks + flushed + [Done];
  }

  function Streamed(buffers: Buffers, lines: seq<Line>): seq<Chunk>
    decreases |lines|
  {
    if lines == [] || lines[0] == DoneMarker then Flush(buffers) + [Done]
    else if !lines[0].Data? then Streamed(buffers, lines[1..])
    else
      var d := lines[0].delta;
      var after := AbsorbAll(buffers, d.fragments);
      if d.finishToolCalls then PlainChunks(d) + Flush(after) + Streamed(map[], lines[1..])
      else PlainChunks(d) + Streamed(after, lines[1..])
  }

  // --- grouping, stated without buffers ------------------------------------------------------------

  /** The fragments of one tool call, in arrival order. */
  function OfIndex(fs: seq<Fragment>, i: int): seq<Fragment> {
    if fs == [] then []
    else
      var before, last := OfIndex(fs[..|fs| - 1], i), fs[|fs| - 1];
      if last.index == i then before + [last] else before
  }

  function Indices(fs: seq<Fragment>): set<int> { set f | f in fs :: f.index }

  function ArgumentsOf(fs: seq<Fragment>): string {
    if fs == [] then ""
    else
      var before := ArgumentsOf(fs[..|fs| - 1]);
      match fs[|fs| - 1].arguments
      case TextArguments(text) => before + text
      case ObjectArguments(dumped) => before + dumped
      case _ => before
  }

  /** The last value some fragment gave for its name; a null takes the name away. */
  function LastName(fs: seq<Fragment>): Option<string> {
    if fs == [] then Some("")
    else
      match fs[|fs| - 1].name
      case Absent => LastName(fs[..|fs| - 1])
      case Null => None
      case Present(name) => Some(name)
  }

  function LastId(fs: seq<Fragment>): Option<string> {
    if fs == [] then Some("")
    else
      match fs[|fs| - 1].id
      case Absent => LastId(fs[..|fs| - 1])
      case Null => None
      case Present(id) => Some(id)
  }

  function Assembled(fs: seq<Fragment>): ToolBuffer { ToolBuffer(LastId(fs), LastName(fs), ArgumentsOf(fs)) }

  function Grouped(fs: seq<Fragment>): Buffers { map i | i in Indices(fs) :: Assembled(OfIndex(fs, i)) }

  lemma {:induction false} OfIndexEmptyIff(fs: seq<Fragment>, i: int)
    ensures OfIndex(fs, i) == [] <==> i !in Indices(fs)
  {
    if fs != [] {
      OfIndexEmptyIff(fs[..|fs| - 1], i);
      assert fs == fs[..|fs| - 1] + [fs[|fs| - 1]];
    }
  }

  lemma AssembledSnoc(group: seq<Fragment>, last: Fragment)
    ensures Assembled(group + [last]) == Extend(Assembled(group), last)
    ensures Assembled([]) == EMPTY_BUFFER
  {
    assert (group + [last])[..|group|] == group;
    assert ArgumentsOf(group) + "" == ArgumentsOf(group);
  }

  lemma OfIndexSnoc(init: seq<Fragment>, last: Fragment, i: int)
    ensures OfIndex(init + [last], i) == if last.index == i then OfIndex(init, i) + [last] else OfIndex(init, i)
    ensures Indices(init + [last]) == Indices(init) + {last.index}
  {
    assert (init + [last])[..|init|] == init;
  }

  lemma GroupedSnoc(init: seq<Fragment>, last: Fragment)
    ensures Grouped(init + [last]) == Absorb(Grouped(init), last)
  {
    AssembledSnoc(OfIndex(init, last.index), last);
    OfIndexEmptyIff(init, last.index);
    forall i ensures OfIndex(init + [last], i) == if last.index == i then OfIndex(init, i) + [last] else OfIndex(init, i) {
      OfIndexSnoc(init, last, i);
    }
    OfIndexSnoc(init, last, last.index);
  }

  /** For every interleaving, the buffers hold exactly the per-index groups. */
  lemma {:induction false} AbsorbingIsGrouping(fs: seq<Fragment>)
    ensures AbsorbAll(map[], fs) == Grouped(fs)
  {
    if fs != [] {
      AbsorbingIsGrouping(fs[..|fs| - 1]);
      GroupedSnoc(fs[..|fs| - 1], fs[|fs| - 1]);
      assert fs == fs[..|fs| - 1] + [fs[|fs| - 1]];
    }
  }

  lemma {:induction false} AbsorbAllAppend(buffers: Buffers, a: seq<Fragment>, b: seq<Fragment>)
    ensures AbsorbAll(buffers, a + b) == AbsorbAll(AbsorbAll(buffers, a), b)
    decreases |b|
  {
    if b == [] {
      assert a + b == a;
    } else {
      assert (a + b)[..|a + b| - 1] == a + b[..|b| - 1];
      AbsorbAllAppend(buffers, a, b[..|b| - 1]);
    }
  }

  /** The fragments between flushes: a finish line closes a segment, the done marker or the end closes the last one. */
  function Segments(open: seq<Fragment>, lines: seq<Line>): seq<seq<Fragment>>
    decreases |lines|
  {
    if lines == [] || lines[0] == DoneMarker then [open]
    else if !lines[0].Data? then Segments(open, lines[1..])
    else
      var segment := open + lines[0].delta.fragments;
      if lines[0].delta.finishToolCalls then [segment] + Segments([], lines[1..]) else Segments(segment, lines[1..])
  }

  /** The calls of one segment: every named group once, by ascending index. */
  function CallsOf(fs: seq<Fragment>): seq<Chunk> { Calls(Grouped(fs), Sorted(Indices(fs))) }

  function AllCalls(segments: seq<seq<Fragment>>): seq<Chunk> {
    if segments == [] then [] else CallsOf(segments[0]) + AllCalls(segments[1..])
  }

  function ToolCallsIn(chunks: seq<Chunk>): seq<Chunk> {
    if chunks == [] then [] else (if chunks[0].ToolCall? then [chunks[0]] else []) + ToolCallsIn(chunks[1..])
  }

  lemma {:induction false} ToolCallsInAppend(a: seq<Chunk>, b: seq<Chunk>)
    ensures ToolCallsIn(a + b) == ToolCallsIn(a) + ToolCallsIn(b)
    decreases |a|
  {
    if a == [] {
      assert a + b == b;
    } else {
      assert (a + b)[1..] == a[1..] + b;
      ToolCallsInAppend(a[1..], b);
    }
  }

  lemma {:induction false} CallsAreToolCalls(buffers: Buffers, indices: seq<int>)
    requires forall k | 0 <= k < |indices| :: indices[k] in buffers
    ensures ToolCallsIn(Calls(buffers, indices)) == Calls(buffers, indices)
  {
    if indices != [] {
      var b := buffers[indices[0]];
      var head := if Named(b) then [ToolCall(b.id, b.name.value, b.arguments)] else [];
      CallsAreToolCalls(buffers, indices[1..]);
      ToolCallsInAppend(head, Calls(buffers, indices[1..]));
    }
  }

  lemma FlushIsCallsOf(open: seq<Fragment>)
    ensures Flush(AbsorbAll(map[], open)) == CallsOf(open)
    ensures ToolCallsIn(CallsOf(open)) == CallsOf(open)
  {
    AbsorbingIsGrouping(open);
    assert Grouped(open).Keys == Indices(open);
    CallsAreToolCalls(Grouped(open), Sorted(Indices(open)));
  }

  lemma NoPlainToolCalls(d: Delta)
    ensures ToolCallsIn(PlainChunks(d)) == []
  {
    var r, t, u := if d.reasoning != "" then [Reasoning(d.reasoning)] else [], if d.text != "" then [Text(d.text)] else [],
                   if d.usage.Some? then [Usage(d.usage.value)] else [];
    ToolCallsInAppend(r + t, u);
    ToolCallsInAppend(r, t);
  }

  lemma {:induction false} StreamedFrom(open: seq<Fragment>, lines: seq<Line>)
    ensures ToolCallsIn(Streamed(AbsorbAll(map[], open), lines)) == AllCalls(Segments(open, lines))
    decreases |lines|
  {
    FlushIsCallsOf(open);
    if lines == [] || lines[0] == DoneMarker {
      ToolCallsInAppend(CallsOf(open), [Done]);
      assert AllCalls([open]) == CallsOf(open);
    } else if lines[0].Data? {
      var d := lines[0].delta;
      var segment := open + d.fragments;
      AbsorbAllAppend(map[], open, d.fragments);
      NoPlainToolCalls(d);
      if d.finishToolCalls {
        StreamedFrom([], lines[1..]);
        FlushedSegment(d, segment, Streamed(map[], lines[1..]), Segments([], lines[1..]));
      } else {
        StreamedFrom(segment, lines[1..]);
        ToolCallsInAppend(PlainChunks(d), Streamed(AbsorbAll(map[], segment), lines[1..]));
      }
    } else {
      StreamedFrom(open, lines[1..]);
    }
  }

  lemma CallsBetween(plain: seq<Chunk>, calls: seq<Chunk>, rest: seq<Chunk>)
    requires ToolCallsIn(plain) == [] && ToolCallsIn(calls) == calls
    ensures ToolCallsIn(plain + calls + rest) == calls + ToolCallsIn(rest)
  {
    ToolCallsInAppend(plain + calls, rest);
    ToolCallsInAppend(plain, calls);
  }

  lemma FlushedSegment(d: Delta, segment: seq<Fragment>, rest: seq<Chunk>, segments: seq<seq<Fragment>>)
    requires ToolCallsIn(rest) == AllCalls(segments)
    ensures ToolCallsIn(PlainChunks(d) + Flush(AbsorbAll(map[], segment)) + rest) == AllCalls([segment] + segments)
  {
    FlushIsCallsOf(segment);
    NoPlainToolCalls(d);
    CallsBetween(PlainChunks(d), CallsOf(segment), rest);
    AllCallsCons(segment, segments);
  }

  lemma AllCallsCons(segment: seq<Fragment>, segments: seq<seq<Fragment>>)
    ensures AllCalls([segment] + segments) == CallsOf(segment) + AllCalls(segments)
  {
    assert ([segment] + segments)[1..] == segments;
  }

  /** Stream assembly equals grouping, for every stream: the finish, [DONE] and end flushes together emit each segment's
      named groups exactly once, in index order. */
  lemma StreamIsGrouping(lines: seq<Line>)
    ensures ToolCallsIn(Streamed(map[], lines)) == AllCalls(Segments([], lines))
  {
    StreamedFrom([], lines);
  }

  /** All fragments up to the done marker. */
  function AllFragments(lines: seq<Line>): seq<Fragment>
    decreases |lines|
  {
    if lines == [] || lines[0] == DoneMarker then []
    else (if lines[0].Data? then lines[0].delta.fragments else []) + AllFragments(lines[1..])
  }

  /** Nothing follows a finish line but empty deltas: the shape providers promise. */
  ghost predicate FinishIsLast(lines: seq<Line>)
    decreases |lines|
  {
    lines == [] || lines[0] == DoneMarker
    || (if lines[0].Data? && lines[0].delta.finishToolCalls then AllFragments(lines[1..]) == [] else FinishIsLast(lines[1..]))
  }

  lemma {:induction false} NoFragmentsNoCalls(lines: seq<Line>)
    requires AllFragments(lines) == []
    ensures AllCalls(Segments([], lines)) == []
    decreases |lines|
  {
    if lines == [] || lines[0] == DoneMarker {
      assert AllCalls([[]]) == CallsOf([]) + AllCalls([]);
      assert Indices([]) == {};
    } else {
      NoFragmentsNoCalls(lines[1..]);
      if lines[0].Data? { assert [] + lines[0].delta.fragments == []; assert Indices([]) == {}; }
    }
  }

  lemma NothingAfter(segment: seq<Fragment>, lines: seq<Line>)
    requires AllFragments(lines) == []
    ensures AllCalls([segment] + Segments([], lines)) == CallsOf(segment)
  {
    var rest := Segments([], lines);
    NoFragmentsNoCalls(lines);
    AllCallsCons(segment, rest);
  }

  lemma {:induction false} OneSegmentFrom(open: seq<Fragment>, lines: seq<Line>)
    requires FinishIsLast(lines)
    ensures AllCalls(Segments(open, lines)) == CallsOf(open + AllFragments(lines))
    decreases |lines|
  {
    var all := open + AllFragments(lines);
    if lines == [] || lines[0] == DoneMarker {
      assert all == open;
      assert AllCalls([open]) == CallsOf(open) + AllCalls([]);
    } else if lines[0].Data? {
      var segment := open + lines[0].delta.fragments;
      assert all == segment + AllFragments(lines[1..]);
      if lines[0].delta.finishToolCalls {
        assert all == segment;
        NothingAfter(segment, lines[1..]);
      } else {
        OneSegmentFrom(segment, lines[1..]);
      }
    } else {
      assert all == open + AllFragments(lines[1..]);
      OneSegmentFrom(open, lines[1..]);
    }
  }

  lemma OneSegment(lines: seq<Line>)
    requires FinishIsLast(lines)
    ensures AllCalls(Segments([], lines)) == CallsOf(AllFragments(lines))
  {
    OneSegmentFrom([], lines);
    assert [] + AllFragments(lines) == AllFragments(lines);
  }

  /** When no fragment follows a finish line, the whole stream is one grouping: each named call once, by index, with the
      in-order concatenation of its fragments. */
  lemma WholeStreamIsOneGrouping(lines: seq<Line>)
    requires FinishIsLast(lines)
    ensures ToolCallsIn(Streamed(map[], lines)) == CallsOf(AllFragments(lines))
  {
    StreamIsGrouping(lines);
    OneSegment(lines);
  }

  /** The call a group of fragments amounts to: last id, last name, arguments joined in arrival order. */
  ghost predicate IsCallOf(c: Chunk, group: seq<Fragment>) {
    c.ToolCall? && c.id == LastId(group) && LastName(group) == Some(c.name) && c.name != "" && c.arguments == ArgumentsOf(group)
  }

  lemma GroupCall(fs: seq<Fragment>, i: int)
    requires i in Indices(fs)
    ensures var b := Grouped(fs)[i];
      && (Named(b) <==> LastName(OfIndex(fs, i)) != None && LastName(OfIndex(fs, i)) != Some(""))
      && (Named(b) ==> IsCallOf(ToolCall(b.id, b.name.value, b.arguments), OfIndex(fs, i)))
  {
  }

  function NamedAmong(fs: seq<Fragment>, indices: seq<int>): seq<int>
    requires forall k | 0 <= k < |indices| :: indices[k] in Indices(fs)
  {
    if indices == [] then []
    else
      var rest := NamedAmong(fs, indices[1..]);
      if Named(Grouped(fs)[indices[0]]) then [indices[0]] + rest else rest
  }

  lemma {:induction false} NamedMembers(fs: seq<Fragment>, indices: seq<int>)
    requires forall k | 0 <= k < |indices| :: indices[k] in Indices(fs)
    ensures forall i :: i in NamedAmong(fs, indices) <==>
      i in indices && LastName(OfIndex(fs, i)) != None && LastName(OfIndex(fs, i)) != Some("")
  {
    if indices != [] {
      NamedMembers(fs, indices[1..]);
      GroupCall(fs, indices[0]);
      assert indices == [indices[0]] + indices[1..];
    }
  }

  lemma AscendingCons(x: int, s: seq<int>)
    requires Ascending(s) && forall y | y in s :: x < y
    ensures Ascending([x] + s)
  {
    assert forall k | 0 <= k < |s| :: s[k] in s;
  }

  lemma {:induction false} NamedAscend(fs: seq<Fragment>, indices: seq<int>)
    requires Ascending(indices) && forall k | 0 <= k < |indices| :: indices[k] in Indices(fs)
    ensures Ascending(NamedAmong(fs, indices))
  {
    if indices != [] {
      NamedAscend(fs, indices[1..]);
      NamedMembers(fs, indices[1..]);
      assert forall y | y in indices[1..] :: indices[0] < y;
      if Named(Grouped(fs)[indices[0]]) { AscendingCons(indices[0], NamedAmong(fs, indices[1..])); }
    }
  }

  lemma {:induction false} NamedCalls(fs: seq<Fragment>, indices: seq<int>)
    requires forall k | 0 <= k < |indices| :: indices[k] in Indices(fs)
    ensures |Calls(Grouped(fs), indices)| == |NamedAmong(fs, indices)|
    ensures forall k | 0 <= k < |NamedAmong(fs, indices)| ::
      IsCallOf(Calls(Grouped(fs), indices)[k], OfIndex(fs, NamedAmong(fs, indices)[k]))
  {
    if indices != [] {
      NamedCalls(fs, indices[1..]);
      GroupCall(fs, indices[0]);
    }
  }

  /** A segment emits, by ascending index, exactly the calls whose last given name is neither null nor empty. */
  lemma EmittedCalls(fs: seq<Fragment>) returns (named: seq<int>)
    ensures Ascending(named)
    ensures forall i :: i in named <==>
              OfIndex(fs, i) != [] && LastName(OfIndex(fs, i)) != None && LastName(OfIndex(fs, i)) != Some("")
    ensures |CallsOf(fs)| == |named|
    ensures forall k | 0 <= k < |named| :: IsCallOf(CallsOf(fs)[k], OfIndex(fs, named[k]))
  {
    var indices := Sorted(Indices(fs));
    assert forall k | 0 <= k < |indices| :: indices[k] in indices;
    named := NamedAmong(fs, indices);
    NamedMembers(fs, indices);
    NamedAscend(fs, indices);
    NamedCalls(fs, indices);
    forall i { OfIndexEmptyIff(fs, i); }
  }

  /** So however a call was named before, an explicit null name in a later fragment of the segment drops it. */
  lemma LaterNullNameDropsTheCall(fs: seq<Fragment>, f: Fragment) returns (named: seq<int>)
    requires f.name == Null
    ensures f.index !in named && |CallsOf(fs + [f])| == |named|
    ensures forall k | 0 <= k < |named| :: IsCallOf(CallsOf(fs + [f])[k], OfIndex(fs + [f], named[k]))
  {
    named := EmittedCalls(fs + [f]);
    assert (fs + [f])[..|fs|] == fs;
    assert OfIndex(fs + [f], f.index) == OfIndex(fs, f.index) + [f];
  }

  // --- everything else a stream says -----------------------------------------------------------------

  /** The order in which one line's chunks come. */
  function Rank(c: Chunk): nat {
    match c case Reasoning(_) => 0 case Text(_) => 1 case Usage(_) => 2 case ToolCall(_, _, _) => 3 case Done => 4
  }

  function OfRank(chunks: seq<Chunk>, rank: nat): seq<Chunk> {
    if chunks == [] then []
    else if Rank(chunks[0]) == rank then [chunks[0]] + OfRank(chunks[1..], rank) else OfRank(chunks[1..], rank)
  }

  lemma {:induction false} OfRankAppend(a: seq<Chunk>, b: seq<Chunk>, rank: nat)
    ensures OfRank(a + b, rank) == OfRank(a, rank) + OfRank(b, rank)
    decreases |a|
  {
    if a == [] {
      assert a + b == b;
    } else {
      assert (a + b)[1..] == a[1..] + b;
      OfRankAppend(a[1..], b, rank);
    }
  }

  /** The data lines up to the done marker. */
  function Deltas(lines: seq<Line>): seq<Delta>
    decreases |lines|
  {
    if lines == [] || lines[0] == DoneMarker then []
    else if lines[0].Data? then [lines[0].delta] + Deltas(lines[1..]) else Deltas(lines[1..])
  }

  /** What a line gives of reasoning, text and usage: each once, unless it is absent or empty. */
  function Given(d: Delta, rank: nat): seq<Chunk> {
    match rank
    case 0 => if d.reasoning == "" then [] else [Reasoning(d.reasoning)]
    case 1 => if d.text == "" then [] else [Text(d.text)]
    case 2 => (match d.usage case None => [] case Some(data) => [Usage(data)])
    case _ => []
  }

  function AllGiven(ds: seq<Delta>, rank: nat): seq<Chunk> {
    if ds == [] then [] else Given(ds[0], rank) + AllGiven(ds[1..], rank)
  }

  predicate Ordered(chunks: seq<Chunk>) { forall i, j | 0 <= i < j < |chunks| :: Rank(chunks[i]) <= Rank(chunks[j]) }

  /** The chunks of one line: its reasoning, its text, its usage, and tool calls only if it finishes them, in this order. */
  ghost predicate ChunksOfLine(d: Delta, block: seq<Chunk>) {
    && Ordered(block)
    && (forall rank: nat | rank < 3 :: OfRank(block, rank) == Given(d, rank))
    && forall i | 0 <= i < |block| :: Rank(block[i]) <= if d.finishToolCalls then 3 else 2
  }

  function Joined(blocks: seq<seq<Chunk>>): seq<Chunk> {
    if blocks == [] then [] else blocks[0] + Joined(blocks[1..])
  }

  lemma {:induction false} CallsHaveRank(buffers: Buffers, indices: seq<int>)
    requires forall k | 0 <= k < |indices| :: indices[k] in buffers
    ensures forall c | c in Calls(buffers, indices) :: c.ToolCall?
    ensures forall rank: nat | rank != 3 :: OfRank(Calls(buffers, indices), rank) == []
  {
    if indices != [] {
      var b := buffers[indices[0]];
      var rest := Calls(buffers, indices[1..]);
      CallsHaveRank(buffers, indices[1..]);
      if Named(b) {
        assert ([ToolCall(b.id, b.name.value, b.arguments)] + rest)[1..] == rest;
      } else {
        assert Calls(buffers, indices) == [] + rest == rest;
      }
    }
  }

  lemma PlainOfRank(d: Delta, rank: nat)
    requires rank < 3
    ensures OfRank(PlainChunks(d), rank) == Given(d, rank)
  {
    var r, t, u := if d.reasoning != "" then [Reasoning(d.reasoning)] else [], if d.text != "" then [Text(d.text)] else [],
                   if d.usage.Some? then [Usage(d.usage.value)] else [];
    OfRankAppend(r + t, u, rank);
    OfRankAppend(r, t, rank);
  }

  lemma OrderedJoin(a: seq<Chunk>, b: seq<Chunk>, rank: nat)
    requires Ordered(a) && Ordered(b)
    requires (forall i | 0 <= i < |a| :: Rank(a[i]) <= rank) && forall i | 0 <= i < |b| :: rank <= Rank(b[i])
    ensures Ordered(a + b)
  {
  }

  lemma PlainIsOrdered(d: Delta)
    ensures Ordered(PlainChunks(d)) && forall i | 0 <= i < |PlainChunks(d)| :: Rank(PlainChunks(d)[i]) <= 2
  {
    var r, t, u := if d.reasoning != "" then [Reasoning(d.reasoning)] else [], if d.text != "" then [Text(d.text)] else [],
                   if d.usage.Some? then [Usage(d.usage.value)] else [];
    OrderedJoin(r, t, 0);
    OrderedJoin(r + t, u, 1);
  }

  /** What a line flushes. */
  function Flushed(d: Delta, after: Buffers): seq<Chunk> { if d.finishToolCalls then Flush(after) else [] }

  lemma LineOfRank(d: Delta, after: Buffers, rank: nat)
    requires rank < 3
    ensures OfRank(PlainChunks(d) + Flushed(d, after), rank) == Given(d, rank)
  {
    CallsHaveRank(after, Sorted(after.Keys));
    OfRankAppend(PlainChunks(d), Flushed(d, after), rank);
    PlainOfRank(d, rank);
    assert Given(d, rank) + [] == Given(d, rank);
  }

  lemma FlushedAreCalls(d: Delta, after: Buffers)
    ensures Ordered(Flushed(d, after)) && forall i | 0 <= i < |Flushed(d, after)| :: Rank(Flushed(d, after)[i]) == 3
    ensures !d.finishToolCalls ==> Flushed(d, after) == []
  {
    CallsHaveRank(after, Sorted(after.Keys));
    assert forall i | 0 <= i < |Flush(after)| :: Flush(after)[i] in Flush(after);
  }

  lemma LineIsOrdered(d: Delta, after: Buffers)
    ensures var line := PlainChunks(d) + Flushed(d, after);
      Ordered(line) && forall i | 0 <= i < |line| :: Rank(line[i]) <= if d.finishToolCalls then 3 else 2
  {
    PlainIsOrdered(d);
    FlushedAreCalls(d, after);
    OrderedJoin(PlainChunks(d), Flushed(d, after), 2);
  }

  lemma LineOfPlain(d: Delta, after: Buffers)
    ensures ChunksOfLine(d, PlainChunks(d) + Flushed(d, after))
  {
    LineIsOrdered(d, after);
    forall rank: nat | rank < 3 ensures OfRank(PlainChunks(d) + Flushed(d, after), rank) == Given(d, rank) {
      LineOfRank(d, after, rank);
    }
  }

  function BuffersAfter(d: Delta, after: Buffers): Buffers { if d.finishToolCalls then map[] else after }

  lemma StreamedLine(buffers: Buffers, lines: seq<Line>)
    requires lines != [] && lines[0].Data?
    ensures var d, after := lines[0].delta, AbsorbAll(buffers, lines[0].delta.fragments);
      Streamed(buffers, lines) == PlainChunks(d) + Flushed(d, after) + Streamed(BuffersAfter(d, after), lines[1..])
  {
    var d := lines[0].delta;
    assert !d.finishToolCalls ==> PlainChunks(d) + [] == PlainChunks(d);
  }

  ghost predicate AreLines(ds: seq<Delta>, blocks: seq<seq<Chunk>>) {
    |blocks| == |ds| && forall k | 0 <= k < |blocks| :: ChunksOfLine(ds[k], blocks[k])
  }

  lemma LineFirst(d: Delta, block: seq<Chunk>, ds: seq<Delta>, blocks: seq<seq<Chunk>>)
    requires ChunksOfLine(d, block) && AreLines(ds, blocks)
    ensures AreLines([d] + ds, [block] + blocks) && Joined([block] + blocks) == block + Joined(blocks)
  {
    assert ([block] + blocks)[1..] == blocks;
    assert forall k | 0 < k <= |blocks| :: ([d] + ds)[k] == ds[k - 1] && ([block] + blocks)[k] == blocks[k - 1];
  }

  /** Every stream is one block of chunks per data line, in order, then the tool calls left over, then the done chunk. */
  lemma {:induction false} StreamIsLines(buffers: Buffers, lines: seq<Line>)
    returns (blocks: seq<seq<Chunk>>, left: seq<Chunk>)
    ensures AreLines(Deltas(lines), blocks)
    ensures forall c | c in left :: c.ToolCall?
    ensures Streamed(buffers, lines) == Joined(blocks) + (left + [Done])
    decreases |lines|
  {
    if lines == [] || lines[0] == DoneMarker {
      blocks, left := [], Flush(buffers);
      CallsHaveRank(buffers, Sorted(buffers.Keys));
      assert [] + (left + [Done]) == left + [Done];
    } else if lines[0].Data? {
      var d, after := lines[0].delta, AbsorbAll(buffers, lines[0].delta.fragments);
      var block := PlainChunks(d) + Flushed(d, after);
      var more;
      more, left := StreamIsLines(BuffersAfter(d, after), lines[1..]);
      LineOfPlain(d, after);
      blocks := [block] + more;
      LineFirst(d, block, Deltas(lines[1..]), more);
      StreamedLine(buffers, lines);
      Appended(block, Joined(more), left + [Done]);
    } else {
      blocks, left := StreamIsLines(buffers, lines[1..]);
    }
  }

  lemma {:induction false} JoinedOfRank(ds: seq<Delta>, blocks: seq<seq<Chunk>>, rank: nat)
    requires AreLines(ds, blocks) && rank < 3
    ensures OfRank(Joined(blocks), rank) == AllGiven(ds, rank)
    decreases |ds|
  {
    if ds != [] {
      assert forall k | 0 <= k < |blocks[1..]| :: ds[1..][k] == ds[k + 1] && blocks[1..][k] == blocks[k + 1];
      JoinedOfRank(ds[1..], blocks[1..], rank);
      OfRankAppend(blocks[0], Joined(blocks[1..]), rank);
    }
  }

  lemma {:induction false} NothingOfRank(chunks: seq<Chunk>, rank: nat)
    requires forall c | c in chunks :: Rank(c) != rank
    ensures OfRank(chunks, rank) == []
    decreases |chunks|
  {
    if chunks != [] { NothingOfRank(chunks[1..], rank); }
  }

  lemma {:induction false} JoinedRanks(ds: seq<Delta>, blocks: seq<seq<Chunk>>)
    requires AreLines(ds, blocks)
    ensures forall c | c in Joined(blocks) :: c != Done
    decreases |ds|
  {
    if ds != [] {
      assert forall k | 0 <= k < |blocks[1..]| :: ds[1..][k] == ds[k + 1] && blocks[1..][k] == blocks[k + 1];
      JoinedRanks(ds[1..], blocks[1..]);
    }
  }

  lemma OneDone(said: seq<Chunk>, left: seq<Chunk>)
    requires (forall c | c in said :: c != Done) && forall c | c in left :: c.ToolCall?
    ensures var chunks := said + (left + [Done]);
      chunks != [] && forall i | 0 <= i < |chunks| :: chunks[i] == Done <==> i == |chunks| - 1
  {
    assert forall i | 0 <= i < |said| :: said[i] in said;
    assert forall i | 0 <= i < |left| :: left[i] in left;
  }

  /** Nothing said is lost, repeated or reordered: the reasoning, the text and the usage chunks of a stream are exactly those
      its data lines give, in order; and its last chunk, and no other, is the done chunk. */
  lemma StreamSaysEverything(lines: seq<Line>, rank: nat)
    requires rank < 3
    ensures OfRank(Streamed(map[], lines), rank) == AllGiven(Deltas(lines), rank)
    ensures var chunks := Streamed(map[], lines);
      chunks != [] && forall i | 0 <= i < |chunks| :: chunks[i] == Done <==> i == |chunks| - 1
  {
    var blocks, left := StreamIsLines(map[], lines);
    JoinedOfRank(Deltas(lines), blocks, rank);
    JoinedRanks(Deltas(lines), blocks);
    OfRankAppend(Joined(blocks), left + [Done], rank);
    NothingOfRank(left + [Done], rank);
    OneDone(Joined(blocks), left);
  }
}
