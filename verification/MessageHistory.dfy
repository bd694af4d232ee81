/** Repair of the pairing between assistant tool calls and tool results in a message list. */
module MessageHistory {
  import opened Wrappers
  import opened Messages
  import opened Sequences

  const ORPHAN_TOOL_OUTPUT := "[error] tool execution failed, no response captured"

  predicate NeedsReply(m: Message) { m.role == Assistant && m.toolCalls != [] }

  function CallIds(m: Message): set<string> { set c | c in m.toolCalls :: c.id }

  function ResultIds(m: Message): set<string> { set r | r in m.toolResults :: r.toolCallId }

  /** A tool message that answers every call of the assistant message. */
  predicate Covers(reply: Message, call: Message) {
    reply.role == Tool && reply.toolResults != [] && CallIds(call) <= ResultIds(reply)
  }

  /** The reply built when no captured tool message covers the calls. */
  function Orphan(m: Message, stamp: nat): Message {
    Message(stamp, Tool, "", "", [], seq(|m.toolCalls|, i requires 0 <= i < |m.toolCalls| =>
      ToolResult(m.toolCalls[i].id, ORPHAN_TOOL_OUTPUT, true)))
  }

  /** The first unused tool message from `start` on that covers the calls. */
  function FindMatch(ms: seq<Message>, start: nat, call: Message, used: set<nat>): (r: Option<nat>)
    requires start <= |ms|
    ensures r.Some? ==> start <= r.value < |ms| && r.value !in used && Covers(ms[r.value], call)
    ensures forall k | start <= k < (if r.Some? then r.value else |ms|) :: k in used || !Covers(ms[k], call)
    decreases |ms| - start
  {
    if start == |ms| then None
    else if start !in used && Covers(ms[start], call) then Some(start)
    else FindMatch(ms, start + 1, call, used)
  }

  function Repaired(ms: seq<Message>, stamps: seq<nat>, i: nat, used: set<nat>): seq<Message>
    requires i <= |ms| == |stamps|
    decreases |ms| - i
  {
    if i == |ms| then []
    else if i in used || ms[i].role == Tool then Repaired(ms, stamps, i + 1, used)
    else if !NeedsReply(ms[i]) then [ms[i]] + Repaired(ms, stamps, i + 1, used)
    else
      match FindMatch(ms, i + 1, ms[i], used)
      case None => [ms[i], Orphan(ms[i], stamps[i])] + Repaired(ms, stamps, i + 1, used)
      case Some(j) => [ms[i], ms[j]] + Repaired(ms, stamps, i + 1, used + {j})
  }

  function Sanitized(ms: seq<Message>, stamps: seq<nat>): seq<Message>
    requires |ms| == |stamps|
  {
    Repaired(ms, stamps, 0, {})
  }

  method FindMatchingToolMessageIndex(ms: seq<Message>, start: nat, call: Message, used: set<nat>) returns (r: Option<nat>)
    ensures r == if call.toolCalls == [] || start >= |ms| then None else FindMatch(ms, start, call, used)
  {
    var expected := CallIds(call);
    if call.toolCalls == [] || start >= |ms| { return None; }
    for i := start to |ms|
      invariant FindMatch(ms, i, call, used) == FindMatch(ms, start, call, used)
    {
      if i in used { continue; }
      if ms[i].role != Tool || ms[i].toolResults == [] { continue; }
      if expected <= ResultIds(ms[i]) { return Some(i); }
    }
    r := None;
  }

  /** `stamps[i]` is what the id generator and the clock would give an orphan reply to message `i`. */
  method SanitizeMessageHistory(ms: seq<Message>, stamps: seq<nat>) returns (sanitized: seq<Message>)
    requires |stamps| == |ms|
    ensures sanitized == Sanitized(ms, stamps)
  {
    sanitized := [];
    var used: set<nat> := {};
    for i := 0 to |ms|
      invariant sanitized + Repaired(ms, stamps, i, used) == Sanitized(ms, stamps)
    {
      if i in used { continue; }
      if ms[i].role == Tool { continue; }
      var cloned, before := ms[i], sanitized;
      sanitized := sanitized + [cloned];
      if cloned.role != Assistant || cloned.toolCalls == [] {
        Appended(before, [cloned], Repaired(ms, stamps, i + 1, used));
        continue;
      }
      var j := FindMatchingToolMessageIndex(ms, i + 1, cloned, used);
      var reply := if j.None? then Orphan(cloned, stamps[i]) else ms[j.value];
      sanitized := sanitized + [reply];
      assert sanitized == before + [cloned, reply];
      if j.Some? { used := used + {j.value}; }
      Appended(before, [cloned, reply], Repaired(ms, stamps, i + 1, used));
    }
  }

  // --- what the result promises ----------------------------------------------------------------

  /** Every assistant message with calls is directly followed by a covering tool message, and there are no others. */
  ghost predicate WellFormed(ms: seq<Message>) {
    && (forall i | 0 <= i < |ms| && NeedsReply(ms[i]) :: i + 1 < |ms| && Covers(ms[i + 1], ms[i]))
    && (forall i | 0 <= i < |ms| && ms[i].role == Tool :: i > 0 && NeedsReply(ms[i - 1]))
  }

  function NonTools(ms: seq<Message>): seq<Message> {
    if ms == [] then [] else if ms[0].role == Tool then NonTools(ms[1..]) else [ms[0]] + NonTools(ms[1..])
  }

  lemma OrphanCovers(m: Message, stamp: nat)
    requires NeedsReply(m)
    ensures Covers(Orphan(m, stamp), m)
  {
    var o := Orphan(m, stamp);
    forall id | id in CallIds(m) ensures id in ResultIds(o) {
      var c :| c in m.toolCalls && c.id == id;
      var i :| 0 <= i < |m.toolCalls| && m.toolCalls[i] == c;
      assert o.toolResults[i] in o.toolResults && o.toolResults[i].toolCallId == id;
    }
    assert o.toolResults[0] == ToolResult(m.toolCalls[0].id, ORPHAN_TOOL_OUTPUT, true);
  }

  lemma WellFormedCons(m: Message, rest: seq<Message>)
    requires WellFormed(rest) && m.role != Tool && !NeedsReply(m)
    ensures WellFormed([m] + rest)
  {
    var ms := [m] + rest;
    assert forall i | 0 < i < |ms| :: ms[i] == rest[i - 1];
    if rest != [] { assert rest[0].role != Tool; }
  }

  lemma WellFormedPair(m: Message, reply: Message, rest: seq<Message>)
    requires WellFormed(rest) && NeedsReply(m) && Covers(reply, m)
    ensures WellFormed([m, reply] + rest)
  {
    var ms := [m, reply] + rest;
    assert forall i | 1 < i < |ms| :: ms[i] == rest[i - 2];
    if rest != [] { assert rest[0].role != Tool; }
  }

  lemma {:induction false} RepairedIsWellFormed(ms: seq<Message>, stamps: seq<nat>, i: nat, used: set<nat>)
    requires i <= |ms| == |stamps|
    ensures WellFormed(Repaired(ms, stamps, i, used))
    decreases |ms| - i
  {
    if i < |ms| {
      if i in used || ms[i].role == Tool {
        RepairedIsWellFormed(ms, stamps, i + 1, used);
      } else if !NeedsReply(ms[i]) {
        RepairedIsWellFormed(ms, stamps, i + 1, used);
        WellFormedCons(ms[i], Repaired(ms, stamps, i + 1, used));
      } else {
        var j := FindMatch(ms, i + 1, ms[i], used);
        var used' := if j.Some? then used + {j.value} else used;
        RepairedIsWellFormed(ms, stamps, i + 1, used');
        OrphanCovers(ms[i], stamps[i]);
        WellFormedPair(ms[i], if j.Some? then ms[j.value] else Orphan(ms[i], stamps[i]), Repaired(ms, stamps, i + 1, used'));
      }
    }
  }

  lemma {:induction false} NonToolsAppend(a: seq<Message>, b: seq<Message>)
    ensures NonTools(a + b) == NonTools(a) + NonTools(b)
    decreases |a|
  {
    if a == [] {
      assert a + b == b;
    } else {
      assert (a + b)[1..] == a[1..] + b;
      NonToolsAppend(a[1..], b);
    }
  }

  lemma NonToolsPair(m: Message, reply: Message, rest: seq<Message>)
    requires m.role != Tool && reply.role == Tool
    ensures NonTools([m, reply] + rest) == [m] + NonTools(rest)
  {
    var all := [m, reply] + rest;
    assert all[1..] == [reply] + rest && all[1..][1..] == rest;
    assert NonTools(all[1..]) == NonTools(rest);
  }

  lemma {:induction false} RepairedKeepsNonTools(ms: seq<Message>, stamps: seq<nat>, i: nat, used: set<nat>)
    requires i <= |ms| == |stamps|
    requires forall k | k in used :: k < |ms| && ms[k].role == Tool
    ensures NonTools(Repaired(ms, stamps, i, used)) == NonTools(ms[i..])
    decreases |ms| - i
  {
    if i < |ms| {
      assert ms[i..][1..] == ms[i + 1..];
      if i in used || ms[i].role == Tool {
        RepairedKeepsNonTools(ms, stamps, i + 1, used);
      } else if !NeedsReply(ms[i]) {
        RepairedKeepsNonTools(ms, stamps, i + 1, used);
        NonToolsAppend([ms[i]], Repaired(ms, stamps, i + 1, used));
      } else {
        var j := FindMatch(ms, i + 1, ms[i], used);
        var used' := if j.Some? then used + {j.value} else used;
        var reply := if j.Some? then ms[j.value] else Orphan(ms[i], stamps[i]);
        RepairedKeepsNonTools(ms, stamps, i + 1, used');
        NonToolsPair(ms[i], reply, Repaired(ms, stamps, i + 1, used'));
      }
    }
  }

  /** Well-formed lists pass through unchanged. */
  lemma {:induction false} WellFormedIsKept(ms: seq<Message>, stamps: seq<nat>, i: nat, used: set<nat>)
    requires i <= |ms| == |stamps| && WellFormed(ms)
    requires i < |ms| ==> ms[i].role != Tool
    requires forall k | k in used :: k < i
    ensures Repaired(ms, stamps, i, used) == ms[i..]
    decreases |ms| - i
  {
    if i < |ms| {
      if NeedsReply(ms[i]) {
        assert Covers(ms[i + 1], ms[i]);
        assert FindMatch(ms, i + 1, ms[i], used) == Some(i + 1);
        WellFormedIsKept(ms, stamps, i + 2, used + {i + 1});
        assert Repaired(ms, stamps, i + 1, used + {i + 1}) == Repaired(ms, stamps, i + 2, used + {i + 1});
        assert ms[i..] == [ms[i], ms[i + 1]] + ms[i + 2..];
      } else {
        WellFormedIsKept(ms, stamps, i + 1, used);
        assert ms[i..] == [ms[i]] + ms[i + 1..];
      }
    }
  }

  /** History repair: the output is well formed, keeps all other messages in order, is stable under a second repair,
      and exactly the well-formed lists are left alone. */
  lemma RepairTheorem(ms: seq<Message>, stamps: seq<nat>, stamps2: seq<nat>)
    requires |ms| == |stamps| && |stamps2| == |Sanitized(ms, stamps)|
    ensures WellFormed(Sanitized(ms, stamps))
    ensures NonTools(Sanitized(ms, stamps)) == NonTools(ms)
    ensures Sanitized(Sanitized(ms, stamps), stamps2) == Sanitized(ms, stamps)
    ensures Sanitized(ms, stamps) == ms <==> WellFormed(ms)
  {
    RepairedIsWellFormed(ms, stamps, 0, {});
    RepairedKeepsNonTools(ms, stamps, 0, {});
    assert ms[0..] == ms;
    var out := Sanitized(ms, stamps);
    WellFormedIsKept(out, stamps2, 0, {});
    assert out[0..] == out;
    if WellFormed(ms) { WellFormedIsKept(ms, stamps, 0, {}); }
  }

  // --- which tool message answers which call ----------------------------------------------------

  /** The tool messages already given away when the loop reaches message `i`. */
  ghost function UsedBefore(ms: seq<Message>, i: nat): set<nat>
    requires i <= |ms|
    decreases i, 0
  {
    if i == 0 then {}
    else UsedBefore(ms, i - 1) + (if ReplyTo(ms, i - 1).Some? then {ReplyTo(ms, i - 1).value} else {})
  }

  ghost predicate TakenBefore(ms: seq<Message>, i: nat, k: nat)
    requires i <= |ms|
  {
    exists m | 0 <= m < i :: ReplyTo(ms, m) == Some(k)
  }

  /** The input tool message that ends up answering message `i`, if any. */
  ghost function ReplyTo(ms: seq<Message>, i: nat): Option<nat>
    requires i < |ms|
    decreases i, 1
  {
    if NeedsReply(ms[i]) then FindMatch(ms, i + 1, ms[i], UsedBefore(ms, i)) else None
  }

  function Emitted(ms: seq<Message>, stamps: seq<nat>, i: nat, reply: Option<nat>): seq<Message>
    requires i < |ms| == |stamps| && (reply.Some? ==> reply.value < |ms|)
  {
    if ms[i].role == Tool then []
    else if !NeedsReply(ms[i]) then [ms[i]]
    else [ms[i], if reply.Some? then ms[reply.value] else Orphan(ms[i], stamps[i])]
  }

  ghost function EmittedFrom(ms: seq<Message>, stamps: seq<nat>, i: nat): seq<Message>
    requires i <= |ms| == |stamps|
    decreases |ms| - i
  {
    if i == |ms| then [] else Emitted(ms, stamps, i, ReplyTo(ms, i)) + EmittedFrom(ms, stamps, i + 1)
  }

  lemma {:induction false} UsedAreEarlierReplies(ms: seq<Message>, i: nat, k: nat)
    requires i <= |ms|
    ensures k in UsedBefore(ms, i) <==> TakenBefore(ms, i, k)
    ensures k in UsedBefore(ms, i) ==> k < |ms| && ms[k].role == Tool
  {
    if i > 0 {
      UsedAreEarlierReplies(ms, i - 1, k);
      assert TakenBefore(ms, i, k) <==> TakenBefore(ms, i - 1, k) || ReplyTo(ms, i - 1) == Some(k);
    }
  }

  lemma {:induction false} RepairedEmits(ms: seq<Message>, stamps: seq<nat>, i: nat)
    requires i <= |ms| == |stamps|
    ensures Repaired(ms, stamps, i, UsedBefore(ms, i)) == EmittedFrom(ms, stamps, i)
    decreases |ms| - i
  {
    if i < |ms| {
      var used, reply := UsedBefore(ms, i), ReplyTo(ms, i);
      var rest := EmittedFrom(ms, stamps, i + 1);
      RepairedEmits(ms, stamps, i + 1);
      UsedAreEarlierReplies(ms, i, i);
      assert UsedBefore(ms, i + 1) == used + (if reply.Some? then {reply.value} else {});
      assert reply.None? ==> UsedBefore(ms, i + 1) == used;
      assert [] + rest == rest;
      assert EmittedFrom(ms, stamps, i) == Emitted(ms, stamps, i, reply) + rest;
    }
  }

  /** Each call gets the first covering tool message after it that no earlier call took, an orphan reply only when there
      is none; no input tool message answers two calls, and the output is exactly the calls with their replies. */
  lemma EachToolMessageUsedOnce(ms: seq<Message>, stamps: seq<nat>)
    requires |ms| == |stamps|
    ensures Sanitized(ms, stamps) == EmittedFrom(ms, stamps, 0)
    ensures forall i, j | 0 <= i < j < |ms| && ReplyTo(ms, i).Some? && ReplyTo(ms, j).Some? ::
              ReplyTo(ms, i).value != ReplyTo(ms, j).value
    ensures forall i, k | 0 <= i < k < |ms| && NeedsReply(ms[i]) && Covers(ms[k], ms[i])
                          && (ReplyTo(ms, i).None? || k < ReplyTo(ms, i).value) ::
              TakenBefore(ms, i, k)
  {
    RepairedEmits(ms, stamps, 0);
    forall i, j | 0 <= i < j < |ms| && ReplyTo(ms, i).Some? && ReplyTo(ms, j).Some?
      ensures ReplyTo(ms, i).value != ReplyTo(ms, j).value
    {
      UsedAreEarlierReplies(ms, j, ReplyTo(ms, i).value);
    }
    forall i, k | 0 <= i < k < |ms| && NeedsReply(ms[i]) && Covers(ms[k], ms[i])
                  && (ReplyTo(ms, i).None? || k < ReplyTo(ms, i).value)
      ensures TakenBefore(ms, i, k)
    {
      UsedAreEarlierReplies(ms, i, k);
    }
  }

  // --- what a reader of the repaired list finds ------------------------------------------------------

  /** The reply made up for calls that nothing answered: one error per call, in order. */
  ghost predicate IsErrorReply(reply: Message, call: Message) {
    && reply.role == Tool && reply.content == "" && reply.reasoning == "" && reply.toolCalls == []
    && |reply.toolResults| == |call.toolCalls|
    && forall k | 0 <= k < |call.toolCalls| ::
         && reply.toolResults[k].toolCallId == call.toolCalls[k].id && reply.toolResults[k].isError
         && reply.toolResults[k].output == "[error] tool execution failed, no response captured"
  }

  /** Right after a message that calls tools stands a tool message with a result for each of its calls: one of the input,
      or the error reply. */
  ghost predicate Answered(ms: seq<Message>, call: Message, reply: Message) {
    && reply.role == Tool
    && (forall c | c in call.toolCalls :: exists r :: r in reply.toolResults && r.toolCallId == c.id)
    && (reply in ms || IsErrorReply(reply, call))
  }

  ghost predicate AllAnswered(ms: seq<Message>, out: seq<Message>) {
    && (forall i | 0 <= i < |out| && out[i].role == Assistant && out[i].toolCalls != [] ::
          i + 1 < |out| && Answered(ms, out[i], out[i + 1]))
    && forall i | 0 <= i < |out| && out[i].role == Tool :: i > 0 && out[i - 1].role == Assistant && out[i - 1].toolCalls != []
  }

  lemma CoversAnswers(reply: Message, call: Message, id: string)
    requires Covers(reply, call) && id in CallIds(call)
    ensures exists r :: r in reply.toolResults && r.toolCallId == id
  {
    assert id in ResultIds(reply);
  }

  lemma ReplyAnswers(ms: seq<Message>, call: Message, reply: Message)
    requires Covers(reply, call) && (reply in ms || exists stamp :: reply == Orphan(call, stamp))
    ensures Answered(ms, call, reply)
  {
    forall c | c in call.toolCalls ensures exists r :: r in reply.toolResults && r.toolCallId == c.id {
      CoversAnswers(reply, call, c.id);
    }
  }

  lemma AnsweredCons(ms: seq<Message>, m: Message, rest: seq<Message>)
    requires AllAnswered(ms, rest) && m.role != Tool && !NeedsReply(m)
    ensures AllAnswered(ms, [m] + rest)
  {
    var out := [m] + rest;
    assert forall i | 0 < i < |out| :: out[i] == rest[i - 1];
    if rest != [] { assert rest[0].role != Tool; }
  }

  lemma AnsweredPair(ms: seq<Message>, m: Message, reply: Message, rest: seq<Message>)
    requires AllAnswered(ms, rest) && NeedsReply(m) && Answered(ms, m, reply)
    ensures AllAnswered(ms, [m, reply] + rest)
  {
    var out := [m, reply] + rest;
    assert forall i | 1 < i < |out| :: out[i] == rest[i - 2];
    if rest != [] { assert rest[0].role != Tool; }
  }

  lemma {:induction false} RepairedIsAnswered(ms: seq<Message>, stamps: seq<nat>, i: nat, used: set<nat>)
    requires i <= |ms| == |stamps|
    ensures AllAnswered(ms, Repaired(ms, stamps, i, used))
    decreases |ms| - i
  {
    if i < |ms| {
      if i in used || ms[i].role == Tool {
        RepairedIsAnswered(ms, stamps, i + 1, used);
      } else if !NeedsReply(ms[i]) {
        RepairedIsAnswered(ms, stamps, i + 1, used);
        AnsweredCons(ms, ms[i], Repaired(ms, stamps, i + 1, used));
      } else {
        var j := FindMatch(ms, i + 1, ms[i], used);
        var used' := if j.Some? then used + {j.value} else used;
        var reply := if j.Some? then ms[j.value] else Orphan(ms[i], stamps[i]);
        RepairedIsAnswered(ms, stamps, i + 1, used');
        OrphanCovers(ms[i], stamps[i]);
        ReplyAnswers(ms, ms[i], reply);
        AnsweredPair(ms, ms[i], reply, Repaired(ms, stamps, i + 1, used'));
      }
    }
  }

  /** Every tool call of a repaired history is answered by the message after it, by a captured result or by an error. */
  lemma EveryCallIsAnswered(ms: seq<Message>, stamps: seq<nat>)
    requires |ms| == |stamps|
    ensures AllAnswered(ms, Sanitized(ms, stamps))
  {
    RepairedIsAnswered(ms, stamps, 0, {});
  }
}
