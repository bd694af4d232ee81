/** The encoder of internal messages into OpenAI-style items and the decoder the completion endpoint uses. */
module WireFormat {
  import opened Wrappers
  import opened Messages
  import opened Sequences

  /** Argument text: the JSON dump of an argument object, or any text that is no JSON. Load inverts dump. */
  datatype ArgText = Dump(arguments: Arguments) | Raw(text: string)

  datatype WireArguments = ArgumentText(text: ArgText) | ArgumentObject(arguments: Arguments) | NoArguments

  datatype WireCall = WireCall(id: Option<string>, name: Option<string>, arguments: WireArguments)

  datatype Part = TextPart(text: string) | OtherPart

  datatype Content = Null | Plain(text: string) | Parts(parts: seq<Part>) | Other(shown: string)

  /** One wire item; absent keys are None. `reasoning` is None unless the item carries a string there. */
  datatype Item = Item(
    role: Option<string>, content: Content, reasoning: Option<string>, toolCalls: Option<seq<WireCall>>, toolCallId: Option<string>)

  /** What the decoder gives every message it builds: a newly generated id and timestamp, defaults elsewhere. */
  const GENERATED: nat := 0

  // --- encoding ------------------------------------------------------------------------------------

  function RoleName(r: Role): string {
    match r case User => "user" case Assistant => "assistant" case System => "system" case Tool => "tool"
  }

  function EncodeCall(c: ToolCall): WireCall { WireCall(Some(c.id), Some(c.name), ArgumentText(Dump(c.arguments))) }

  function EncodeCalls(cs: seq<ToolCall>): (r: seq<WireCall>)
    ensures |r| == |cs|
  {
    if cs == [] then [] else [EncodeCall(cs[0])] + EncodeCalls(cs[1..])
  }

  function AssistantMessage(m: Message): Item {
    Item(Some("assistant"),
         if m.toolCalls != [] && m.content == "" then Null else Plain(m.content),
         if m.reasoning != "" then Some(m.reasoning) else None,
         if m.toolCalls != [] then Some(EncodeCalls(m.toolCalls)) else None,
         None)
  }

  function EncodeResult(r: ToolResult): Item { Item(Some("tool"), Plain(r.output), None, None, Some(r.toolCallId)) }

  function EncodeResults(rs: seq<ToolResult>): seq<Item> {
    if rs == [] then [] else [EncodeResult(rs[0])] + EncodeResults(rs[1..])
  }

  function EncodeOne(m: Message): seq<Item> {
    if m.role == Assistant then [AssistantMessage(m)]
    else if m.role == Tool && m.toolResults != [] then EncodeResults(m.toolResults)
    else [Item(Some(if m.role == System then "system" else "user"), Plain(m.content), None, None, None)]
  }

  function FlatMap<A, B>(f: A -> seq<B>, s: seq<A>): seq<B> {
    if s == [] then [] else f(s[0]) + FlatMap(f, s[1..])
  }

  function Encode(ms: seq<Message>): seq<Item> { FlatMap(EncodeOne, ms) }

  method AppendResults(before: seq<Item>, results: seq<ToolResult>) returns (result: seq<Item>)
    ensures result == before + EncodeResults(results)
  {
    result := before;
    for j := 0 to |results|
      invariant result + EncodeResults(results[j..]) == before + EncodeResults(results)
    {
      assert results[j..][1..] == results[j + 1..];
      Appended(result, [EncodeResult(results[j])], EncodeResults(results[j + 1..]));
      result := result + [EncodeResult(results[j])];
    }
  }

  method ToOpenaiMessages(messages: seq<Message>) returns (result: seq<Item>)
    ensures result == Encode(messages)
  {
    result := [];
    for i := 0 to |messages|
      invariant result + Encode(messages[i..]) == Encode(messages)
    {
      var msg := messages[i];
      assert messages[i..][1..] == messages[i + 1..];
      Appended(result, EncodeOne(msg), Encode(messages[i + 1..]));
      if msg.role == Assistant {
        result := result + [AssistantMessage(msg)];
        continue;
      }
      if msg.role == Tool && msg.toolResults != [] {
        result := AppendResults(result, msg.toolResults);
        continue;
      }
      var role := if msg.role == System || msg.role == User then RoleName(msg.role) else "user";
      result := result + [Item(Some(role), Plain(msg.content), None, None, None)];
    }
  }

  // --- decoding ------------------------------------------------------------------------------------

  function TextOf(parts: seq<Part>): string {
    if parts == [] then "" else (if parts[0].TextPart? then parts[0].text else "") + TextOf(parts[1..])
  }

  function ToText(c: Content): string {
    match c
    case Null => ""
    case Plain(text) => text
    case Parts(parts) => TextOf(parts)
    case Other(shown) => shown
  }

  function ParseArgs(a: WireArguments): Arguments {
    match a
    case ArgumentObject(arguments) => arguments
    case ArgumentText(Dump(arguments)) => arguments
    case ArgumentText(Raw(text)) => if text == "" then map[] else map["raw" := text]
    case NoArguments => map[]
  }

  function OrEmpty(s: Option<string>): string { if s.Some? then s.value else "" }

  function DecodeCall(c: WireCall): ToolCall { ToolCall(OrEmpty(c.id), OrEmpty(c.name), ParseArgs(c.arguments)) }

  function DecodeCalls(cs: seq<WireCall>): (r: seq<ToolCall>)
    ensures |r| == |cs|
  {
    if cs == [] then [] else [DecodeCall(cs[0])] + DecodeCalls(cs[1..])
  }

  function DecodeOne(item: Item): Message {
    if item.role == Some("assistant") then
      Message(GENERATED, Assistant, ToText(item.content), OrEmpty(item.reasoning),
              if item.toolCalls.Some? then DecodeCalls(item.toolCalls.value) else [], [])
    else if item.role == Some("tool") then
      Message(GENERATED, Tool, "", "", [], [ToolResult(OrEmpty(item.toolCallId), ToText(item.content), false)])
    else
      Message(GENERATED, if item.role == Some("system") then System else User, ToText(item.content), "", [], [])
  }

  function Map<A, B>(f: A -> B, s: seq<A>): seq<B> {
    if s == [] then [] else [f(s[0])] + Map(f, s[1..])
  }

  function Decode(items: seq<Item>): seq<Message> { Map(DecodeOne, items) }

  method OpenaiMessagesToInternal(items: seq<Item>) returns (out: seq<Message>)
    ensures out == Decode(items)
  {
    out := [];
    for i := 0 to |items|
      invariant out + Decode(items[i..]) == Decode(items)
    {
      var item := items[i];
      assert items[i..][1..] == items[i + 1..];
      Appended(out, [DecodeOne(item)], Decode(items[i + 1..]));
      var role := if item.role.Some? then item.role.value else "user";
      if role == "assistant" {
        var calls := DecodeCalls(if item.toolCalls.Some? then item.toolCalls.value else []);
        var reasoning := if item.reasoning.Some? && item.reasoning.value != "" then item.reasoning.value else "";
        out := out + [Message(GENERATED, Assistant, ToText(item.content), reasoning, calls, [])];
      } else if role == "tool" {
        var res := ToolResult(OrEmpty(item.toolCallId), ToText(item.content), false);
        out := out + [Message(GENERATED, Tool, "", "", [], [res])];
      } else {
        out := out + [Message(GENERATED, if role == "system" then System else User, ToText(item.content), "", [], [])];
      }
    }
  }

  // --- normal forms --------------------------------------------------------------------------------

  /** The single-result tool messages a multi-result one stands for on the wire. */
  function SplitResults(rs: seq<ToolResult>): (r: seq<Message>)
    ensures |r| == |rs|
  {
    if rs == [] then []
    else [Message(GENERATED, Tool, "", "", [], [rs[0].(isError := false)])] + SplitResults(rs[1..])
  }

  /** What a message says on the wire: an assistant keeps text, reasoning and calls; a tool message is split by result,
      or is user text when it has none; anything else keeps its role and text. */
  function NormalOne(m: Message): seq<Message> {
    match m.role
    case Assistant => [m.(stamp := GENERATED, toolResults := [])]
    case Tool => if m.toolResults == [] then [Message(GENERATED, User, m.content, "", [], [])] else SplitResults(m.toolResults)
    case _ => [Message(GENERATED, m.role, m.content, "", [], [])]
  }

  function Normal(ms: seq<Message>): seq<Message> { FlatMap(NormalOne, ms) }

  /** The messages a decoder can produce. */
  predicate IsNormal(m: Message) {
    && m.stamp == GENERATED
    && (m.role == Assistant ==> m.toolResults == [])
    && (m.role == Tool ==> |m.toolResults| == 1 && !m.toolResults[0].isError && m.content == "")
    && (m.role != Assistant ==> m.reasoning == "" && m.toolCalls == [])
    && (m.role == User || m.role == System ==> m.toolResults == [])
  }

  lemma {:induction false} CallsRoundTrip(cs: seq<ToolCall>)
    ensures DecodeCalls(EncodeCalls(cs)) == cs
  {
    if cs != [] { CallsRoundTrip(cs[1..]); }
  }

  lemma {:induction false} MapJoin<A, B>(f: A -> B, a: seq<A>, b: seq<A>)
    ensures Map(f, a + b) == Map(f, a) + Map(f, b)
  {
    if a == [] {
      assert a + b == b;
    } else {
      MapJoin(f, a[1..], b);
      assert (a + b)[0] == a[0] && (a + b)[1..] == a[1..] + b;
    }
  }

  lemma {:induction false} FlatMapJoin<A, B>(f: A -> seq<B>, a: seq<A>, b: seq<A>)
    ensures FlatMap(f, a + b) == FlatMap(f, a) + FlatMap(f, b)
  {
    if a == [] {
      assert a + b == b;
    } else {
      FlatMapJoin(f, a[1..], b);
      assert (a + b)[0] == a[0] && (a + b)[1..] == a[1..] + b;
      assert FlatMap(f, a + b) == f(a[0]) + FlatMap(f, a[1..] + b);
      Appended(f(a[0]), FlatMap(f, a[1..]), FlatMap(f, b));
    }
  }

  lemma EncodesSingleResult(r: ToolResult)
    ensures Encode([Message(GENERATED, Tool, "", "", [], [r.(isError := false)])]) == [EncodeResult(r)]
  {
    var m := Message(GENERATED, Tool, "", "", [], [r.(isError := false)]);
    assert EncodeResults(m.toolResults) == [EncodeResult(m.toolResults[0])] + EncodeResults(m.toolResults[1..]);
    assert FlatMap(EncodeOne, [m]) == EncodeOne(m) + FlatMap(EncodeOne, [m][1..]);
  }

  lemma {:induction false} ResultsRoundTrip(rs: seq<ToolResult>)
    ensures Decode(EncodeResults(rs)) == SplitResults(rs)
    ensures Encode(SplitResults(rs)) == EncodeResults(rs)
  {
    if rs != [] {
      ResultsRoundTrip(rs[1..]);
      var first := Message(GENERATED, Tool, "", "", [], [rs[0].(isError := false)]);
      EncodesSingleResult(rs[0]);
      FlatMapJoin(EncodeOne, [first], SplitResults(rs[1..]));
    }
  }

  lemma Singles(m: Message, item: Item)
    ensures Encode([m]) == EncodeOne(m) && Decode([item]) == [DecodeOne(item)]
  {
    assert FlatMap(EncodeOne, [m]) == EncodeOne(m) + FlatMap(EncodeOne, [m][1..]);
    assert Map(DecodeOne, [item]) == [DecodeOne(item)] + Map(DecodeOne, [item][1..]);
  }

  lemma AssistantRoundTrip(m: Message)
    requires m.role == Assistant
    ensures Decode(EncodeOne(m)) == NormalOne(m)
    ensures Encode(NormalOne(m)) == EncodeOne(m)
  {
    CallsRoundTrip(m.toolCalls);
    Singles(NormalOne(m)[0], AssistantMessage(m));
  }

  lemma OneRoundTrip(m: Message)
    ensures Decode(EncodeOne(m)) == NormalOne(m)
    ensures Encode(NormalOne(m)) == EncodeOne(m)
  {
    if m.role == Assistant {
      AssistantRoundTrip(m);
    } else if m.role == Tool && m.toolResults != [] {
      ResultsRoundTrip(m.toolResults);
    } else {
      Singles(NormalOne(m)[0], EncodeOne(m)[0]);
    }
  }

  /** Decoding what was encoded gives the normal form, and encoding that again gives the same wire items. */
  lemma {:induction false} RoundTrip(ms: seq<Message>)
    ensures Decode(Encode(ms)) == Normal(ms)
    ensures Encode(Decode(Encode(ms))) == Encode(ms)
  {
    if ms != [] {
      RoundTrip(ms[1..]);
      OneRoundTrip(ms[0]);
      MapJoin(DecodeOne, EncodeOne(ms[0]), Encode(ms[1..]));
      FlatMapJoin(EncodeOne, NormalOne(ms[0]), Normal(ms[1..]));
    }
  }

  /** Whatever the wire holds, the decoder produces normal messages, and these survive the round trip unchanged. */
  lemma DecodedIsStable(items: seq<Item>)
    ensures forall k | 0 <= k < |Decode(items)| :: IsNormal(Decode(items)[k])
    ensures Decode(Encode(Decode(items))) == Decode(items)
  {
    NormalDecoded(items);
    NormalIsFixed(Decode(items));
    RoundTrip(Decode(items));
  }

  lemma {:induction false} NormalDecoded(items: seq<Item>)
    ensures forall k | 0 <= k < |Decode(items)| :: IsNormal(Decode(items)[k])
  {
    if items != [] {
      NormalDecoded(items[1..]);
      assert Decode(items) == [DecodeOne(items[0])] + Decode(items[1..]);
      assert IsNormal(DecodeOne(items[0]));
    }
  }

  lemma {:induction false} NormalIsNoShorter(ms: seq<Message>)
    ensures |Normal(ms)| >= |ms|
  {
    if ms != [] { NormalIsNoShorter(ms[1..]); }
  }

  lemma NormalOneIsFixed(m: Message)
    ensures NormalOne(m) == [m] <==> IsNormal(m)
  {
    if m.role == Tool && m.toolResults != [] {
      var first := SplitResults(m.toolResults)[0];
      assert first == Message(GENERATED, Tool, "", "", [], [m.toolResults[0].(isError := false)]);
      if |m.toolResults| == 1 {
        assert SplitResults(m.toolResults) == [first];
        assert IsNormal(m) <==> m == first by { assert m.toolResults == [m.toolResults[0]]; }
      }
    }
  }

  /** The fixed points of the round trip are exactly the lists of normal messages. */
  lemma {:induction false} NormalIsFixed(ms: seq<Message>)
    ensures Normal(ms) == ms <==> forall k | 0 <= k < |ms| :: IsNormal(ms[k])
  {
    if ms != [] {
      var first, rest := NormalOne(ms[0]), Normal(ms[1..]);
      NormalIsFixed(ms[1..]);
      NormalIsNoShorter(ms[1..]);
      NormalOneIsFixed(ms[0]);
      assert ms == [ms[0]] + ms[1..];
      assert forall k | 0 < k < |ms| :: ms[k] == ms[1..][k - 1];
      if first + rest == ms {
        assert |first| == 1 && first[0] == ms[0] && rest == (first + rest)[1..];
      }
    }
  }

  // --- what the wire carries, field by field ---------------------------------------------------------

  ghost predicate CallOnWire(c: ToolCall, w: WireCall) {
    w.id == Some(c.id) && w.name == Some(c.name) && w.arguments == ArgumentText(Dump(c.arguments))
  }

  /** An assistant message: its text unless it only calls tools, its reasoning and its calls if it has any. */
  ghost predicate AssistantOnWire(m: Message, item: Item) {
    && item.role == Some("assistant") && item.toolCallId == None
    && item.content == (if m.content == "" && |m.toolCalls| > 0 then Null else Plain(m.content))
    && (match item.reasoning case Some(text) => text == m.reasoning != "" case None => m.reasoning == "")
    && (match item.toolCalls
        case Some(calls) => |calls| == |m.toolCalls| > 0 && forall k | 0 <= k < |calls| :: CallOnWire(m.toolCalls[k], calls[k])
        case None => |m.toolCalls| == 0)
  }

  /** The wire items of one message. A tool message is one item per result, and user text when it has none. */
  ghost predicate OnWire(m: Message, items: seq<Item>) {
    match m.role
    case Assistant => |items| == 1 && AssistantOnWire(m, items[0])
    case System => items == [Item(Some("system"), Plain(m.content), None, None, None)]
    case User => items == [Item(Some("user"), Plain(m.content), None, None, None)]
    case Tool =>
      if m.toolResults == [] then items == [Item(Some("user"), Plain(m.content), None, None, None)]
      else
        && |items| == |m.toolResults|
        && forall k | 0 <= k < |items| ::
             items[k] == Item(Some("tool"), Plain(m.toolResults[k].output), None, None, Some(m.toolResults[k].toolCallId))
  }

  lemma {:induction false} CallsOnWire(cs: seq<ToolCall>)
    ensures forall k | 0 <= k < |cs| :: CallOnWire(cs[k], EncodeCalls(cs)[k])
  {
    if cs != [] {
      CallsOnWire(cs[1..]);
      assert forall k | 0 < k < |cs| :: cs[k] == cs[1..][k - 1] && EncodeCalls(cs)[k] == EncodeCalls(cs[1..])[k - 1];
    }
  }

  lemma {:induction false} ResultsOnWire(rs: seq<ToolResult>)
    ensures |EncodeResults(rs)| == |rs|
    ensures forall k | 0 <= k < |rs| ::
      EncodeResults(rs)[k] == Item(Some("tool"), Plain(rs[k].output), None, None, Some(rs[k].toolCallId))
  {
    if rs != [] {
      ResultsOnWire(rs[1..]);
      assert forall k | 0 < k < |rs| :: rs[k] == rs[1..][k - 1] && EncodeResults(rs)[k] == EncodeResults(rs[1..])[k - 1];
    }
  }

  lemma OneOnWire(m: Message)
    ensures OnWire(m, EncodeOne(m))
  {
    CallsOnWire(m.toolCalls);
    ResultsOnWire(m.toolResults);
  }

  ghost predicate AllOnWire(ms: seq<Message>, blocks: seq<seq<Item>>) {
    |blocks| == |ms| && forall k | 0 <= k < |ms| :: OnWire(ms[k], blocks[k])
  }

  function Joined(blocks: seq<seq<Item>>): seq<Item> { if blocks == [] then [] else blocks[0] + Joined(blocks[1..]) }

  /** An encoded history is the items of its messages, one message after the other. */
  lemma {:induction false} EncodedIsOnWire(ms: seq<Message>) returns (blocks: seq<seq<Item>>)
    ensures AllOnWire(ms, blocks) && Encode(ms) == Joined(blocks)
  {
    blocks := [];
    if ms != [] {
      var rest := EncodedIsOnWire(ms[1..]);
      OneOnWire(ms[0]);
      blocks := [EncodeOne(ms[0])] + rest;
      assert blocks[1..] == rest;
      assert forall k | 0 < k < |ms| :: ms[k] == ms[1..][k - 1] && blocks[k] == rest[k - 1];
    }
  }

  /** The text of a list of parts is the texts of its text parts, put together in order. */
  lemma {:induction false} TextOfParts(a: seq<Part>, b: seq<Part>, text: string)
    ensures TextOf([]) == "" && TextOf([TextPart(text)]) == text && TextOf([OtherPart]) == ""
    ensures TextOf(a + b) == TextOf(a) + TextOf(b)
    decreases |a|
  {
    assert [TextPart(text)][1..] == [] && text + "" == text;
    if a == [] {
      assert a + b == b;
    } else {
      assert (a + b)[1..] == a[1..] + b;
      TextOfParts(a[1..], b, text);
    }
  }

  ghost predicate ReadsText(text: string, c: Content) {
    match c
    case Null => text == ""
    case Plain(t) => text == t
    case Parts(parts) => text == TextOf(parts)
    case Other(shown) => text == shown
  }

  /** A missing or empty argument text is no arguments, and text that is no JSON is kept under "raw". */
  ghost predicate ReadsCall(c: ToolCall, w: WireCall) {
    && (match w.id case Some(id) => c.id == id case None => c.id == "")
    && (match w.name case Some(name) => c.name == name case None => c.name == "")
    && match w.arguments
       case ArgumentObject(arguments) => c.arguments == arguments
       case ArgumentText(Dump(arguments)) => c.arguments == arguments
       case ArgumentText(Raw(text)) => c.arguments == (if text == "" then map[] else map["raw" := text])
       case NoArguments => c.arguments == map[]
  }

  /** What one wire item is read as; a role that is not known is the user's. */
  ghost predicate ReadsItem(m: Message, item: Item) {
    if item.role == Some("assistant") then
      && m.role == Assistant && ReadsText(m.content, item.content) && m.toolResults == []
      && (match item.reasoning case Some(text) => m.reasoning == text case None => m.reasoning == "")
      && (match item.toolCalls
          case Some(calls) => |m.toolCalls| == |calls| && forall k | 0 <= k < |calls| :: ReadsCall(m.toolCalls[k], calls[k])
          case None => m.toolCalls == [])
    else if item.role == Some("tool") then
      && m.role == Tool && m.content == "" && m.reasoning == "" && m.toolCalls == [] && |m.toolResults| == 1
      && ReadsText(m.toolResults[0].output, item.content) && !m.toolResults[0].isError
      && (match item.toolCallId
          case Some(id) => m.toolResults[0].toolCallId == id
          case None => m.toolResults[0].toolCallId == "")
    else
      && m.role == (if item.role == Some("system") then System else User) && ReadsText(m.content, item.content)
      && m.reasoning == "" && m.toolCalls == [] && m.toolResults == []
  }

  lemma {:induction false} CallsAreRead(cs: seq<WireCall>)
    ensures forall k | 0 <= k < |cs| :: ReadsCall(DecodeCalls(cs)[k], cs[k])
  {
    if cs != [] {
      CallsAreRead(cs[1..]);
      assert forall k | 0 < k < |cs| :: cs[k] == cs[1..][k - 1] && DecodeCalls(cs)[k] == DecodeCalls(cs[1..])[k - 1];
    }
  }

  /** The decoder reads every item of any wire list as one message, field by field. */
  lemma {:induction false} EveryItemIsRead(items: seq<Item>)
    ensures |Decode(items)| == |items| && forall k | 0 <= k < |items| :: ReadsItem(Decode(items)[k], items[k])
  {
    if items != [] {
      EveryItemIsRead(items[1..]);
      if items[0].toolCalls.Some? { CallsAreRead(items[0].toolCalls.value); }
      assert ReadsItem(DecodeOne(items[0]), items[0]);
      assert forall k | 0 < k < |items| :: items[k] == items[1..][k - 1] && Decode(items)[k] == Decode(items[1..])[k - 1];
    }
  }
}
