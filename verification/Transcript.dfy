/** Chat messages and the order in which an LLM accepts them. */
module Transcript {
  import JsonSchema

  /** The arguments of a call by name; none when they do not parse. */
  type Given = map<string, JsonSchema.Json>

  /** given is what the arguments parse to. */
  datatype ToolCall = ToolCall(id: string, name: string, arguments: string, given: Given)

  datatype Message =
    | System(content: string)
    | User(content: string)
    | Assistant(content: string, calls: seq<ToolCall>)
    | Tool(callId: string, content: string)

  /** The replies answer the calls one by one, in order. */
  predicate Answers(calls: seq<ToolCall>, replies: seq<Message>) {
    |replies| == |calls| && forall j | 0 <= j < |calls| :: replies[j].Tool? && replies[j].callId == calls[j].id
  }

  /** Tool messages occur only as the replies to the calls right before them, and every call is answered. */
  predicate Legal(ms: seq<Message>)
    decreases |ms|
  {
    if ms == [] then true
    else if ms[0].Tool? then false
    else
      var n := if ms[0].Assistant? then |ms[0].calls| else 0;
      |ms| > n && (ms[0].Assistant? ==> Answers(ms[0].calls, ms[1..1 + n])) && Legal(ms[1 + n..])
  }

  predicate Leads(m: Message) { m.System? || m.User? }

  /** Where the messages from i on first stop leading. */
  function HeaderEnd(ms: seq<Message>, i: nat): (n: nat)
    requires i <= |ms|
    ensures i <= n <= |ms| && forall j | i <= j < n :: Leads(ms[j])
    ensures n < |ms| ==> !Leads(ms[n])
    decreases |ms| - i
  {
    if i == |ms| || !Leads(ms[i]) then i else HeaderEnd(ms, i + 1)
  }

  /** The system and user messages at the start. */
  function Header(ms: seq<Message>): seq<Message> { ms[..HeaderEnd(ms, 0)] }

  /** A legal start can be cut off: what follows is legal exactly when the whole is. */
  lemma {:induction false} LegalAfter(a: seq<Message>, b: seq<Message>)
    requires Legal(a)
    ensures Legal(a + b) <==> Legal(b)
    decreases |a|
  {
    if a == [] {
      assert a + b == b;
    } else {
      var n := if a[0].Assistant? then |a[0].calls| else 0;
      LegalAfter(a[1 + n..], b);
      LegalTail(a, b, n);
    }
  }

  lemma {:induction false} LegalTail(a: seq<Message>, b: seq<Message>, n: nat)
    requires a != [] && Legal(a) && n == (if a[0].Assistant? then |a[0].calls| else 0)
    ensures Legal(a + b) <==> Legal(a[1 + n..] + b)
  {
    var ms := a + b;
    assert ms[0] == a[0] && ms[1..1 + n] == a[1..1 + n] && ms[1 + n..] == a[1 + n..] + b;
  }

  lemma LegalText(ms: seq<Message>, m: Message)
    requires Legal(ms) && (m.System? || m.User? || (m.Assistant? && m.calls == []))
    ensures Legal(ms + [m])
  {
    LegalAfter(ms, [m]);
    assert [m][1..] == [] && [m][1..1] == [];
  }

  lemma LegalTurn(ms: seq<Message>, m: Message, replies: seq<Message>)
    requires Legal(ms) && m.Assistant?
    ensures Legal(ms + [m] + replies) <==> Legal([m] + replies)
    ensures Answers(m.calls, replies) ==> Legal(ms + [m] + replies)
  {
    assert ms + [m] + replies == ms + ([m] + replies);
    LegalAfter(ms, [m] + replies);
    if Answers(m.calls, replies) { AnsweredIsLegal(m, replies); }
  }

  lemma AnsweredIsLegal(m: Message, replies: seq<Message>)
    requires m.Assistant? && Answers(m.calls, replies)
    ensures Legal([m] + replies)
  {
    var ms := [m] + replies;
    assert ms[0] == m && ms[1..1 + |m.calls|] == replies && ms[1 + |m.calls|..] == [];
  }

  lemma {:induction false} HeaderIsLegal(h: seq<Message>)
    requires forall m | m in h :: Leads(m)
    ensures Legal(h)
    decreases |h|
  {
    if h != [] {
      assert h[0] in h;
      HeaderIsLegal(h[1..]);
    }
  }

  /** What the header begins with stays in the header. */
  lemma HeaderGrows(h: seq<Message>, ms: seq<Message>)
    requires h <= ms && forall m | m in h :: Leads(m)
    ensures h <= Header(ms)
  {
    forall i | 0 <= i < |h| ensures Leads(ms[i]) { assert h[i] in h; }
  }

  // ------------------------------------------------- the cancellation exit

  ghost predicate Answered(ms: seq<Message>, id: string) {
    exists k | 0 <= k < |ms| :: ms[k].Tool? && ms[k].callId == id
  }

  const INTERRUPTED := "Tool execution interrupted by user cancellation"

  predicate NeedsReply(c: ToolCall, replied: set<string>) { c.id != "" && c.id !in replied }

  /** The replies made up for those of the first n calls that have an id which no earlier tool message carries. */
  function MadeUpTo(calls: seq<ToolCall>, n: nat, replied: set<string>): (replies: seq<Message>)
    requires n <= |calls|
    ensures |replies| <= n
  {
    if n == 0 then []
    else
      MadeUpTo(calls, n - 1, replied)
      + if NeedsReply(calls[n - 1], replied) then [Tool(calls[n - 1].id, INTERRUPTED)] else []
  }

  function MadeUp(calls: seq<ToolCall>, replied: set<string>): seq<Message> { MadeUpTo(calls, |calls|, replied) }

  function RepliedIds(ms: seq<Message>): set<string> {
    set k | 0 <= k < |ms| && ms[k].Tool? :: ms[k].callId
  }

  lemma {:induction false} MadeUpAnswers(calls: seq<ToolCall>, n: nat, replied: set<string>)
    requires n <= |calls|
    ensures (forall i | 0 <= i < n :: NeedsReply(calls[i], replied)) <==> |MadeUpTo(calls, n, replied)| == n
    ensures |MadeUpTo(calls, n, replied)| == n ==> Answers(calls[..n], MadeUpTo(calls, n, replied))
  {
    if n > 0 { MadeUpAnswers(calls, n - 1, replied); }
  }

  /** When the tool calls of the last message are interrupted, replies are made up for them. */
  method Repair(ms: seq<Message>, calls: seq<ToolCall>) returns (repaired: seq<Message>)
    ensures repaired == ms + MadeUp(calls, RepliedIds(ms))
  {
    var replied := RepliedIds(ms);
    repaired := ms;
    for i := 0 to |calls|
      invariant repaired == ms + MadeUpTo(calls, i, replied)
    {
      if calls[i].id != "" && calls[i].id !in replied {
        repaired := repaired + [Tool(calls[i].id, INTERRUPTED)];
      }
    }
  }

  /** The repair gives a legal transcript exactly when every interrupted call has an id of its own, not
      empty and not answered in an earlier turn. */
  lemma RepairIsLegalIff(ms: seq<Message>, m: Message)
    requires Legal(ms) && m.Assistant?
    ensures Legal(ms + [m] + MadeUp(m.calls, RepliedIds(ms + [m]))) <==>
      forall c | c in m.calls :: c.id != "" && !Answered(ms, c.id)
  {
    var replied := RepliedIds(ms + [m]);
    var replies := MadeUp(m.calls, replied);
    forall id ensures id in replied <==> Answered(ms, id) {
      if id in replied {
        var k :| 0 <= k < |ms + [m]| && (ms + [m])[k].Tool? && (ms + [m])[k].callId == id;
        assert k < |ms|;
      }
      if Answered(ms, id) {
        var k :| 0 <= k < |ms| && ms[k].Tool? && ms[k].callId == id;
        assert (ms + [m])[k] == ms[k];
      }
    }
    MadeUpAnswers(m.calls, |m.calls|, replied);
    assert m.calls[..|m.calls|] == m.calls;
    LegalTurn(ms, m, replies);
    assert ([m] + replies)[0] == m;
  }
}
