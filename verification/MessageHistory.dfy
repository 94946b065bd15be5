/** Rebuilding the transcript of a paused run from its stored LLM calls. */
module MessageHistory {
  import opened Transcript
  import opened Wrappers

  /** Reading and writing JSON objects. Anything else parses to None. */
  datatype Json = Json(parse: string -> Option<map<string, string>>, dumps: map<string, string> -> string)

  ghost predicate RoundTrips(json: Json) {
    forall m :: json.parse(json.dumps(m)) == Some(m) && json.dumps(m) != ""
  }

  /** A tool call as the response of the LLM was stored, possibly without an id. */
  datatype Requested = Requested(id: Option<string>, name: string, arguments: string, given: Given)

  /** What a tool call without an outcome waits for. */
  datatype Wait = Nothing | Question | Approval

  /** The row of a tool call; empty strings are absent values. */
  datatype ToolRow = ToolRow(result: string, error: string, wait: Wait)

  datatype LlmCall = LlmCall(request: seq<Message>, content: string, responses: seq<Requested>, rows: seq<ToolRow>)

  const DISPLAY_ONLY := "user_answer"

  function Digits(n: nat): (s: string)
    ensures s != [] && forall i | 0 <= i < |s| :: '0' <= s[i] <= '9'
  {
    if n < 10 then [('0' as int + n) as char] else Digits(n / 10) + [('0' as int + n % 10) as char]
  }

  predicate ForDisplay(result: string, json: Json) {
    result != "" && json.parse(result).Some? && DISPLAY_ONLY in json.parse(result).value
  }

  /** _strip_display_fields. */
  function Stripped(result: string, json: Json): string {
    if ForDisplay(result, json) then json.dumps(json.parse(result).value - {DISPLAY_ONLY}) else result
  }

  /** What is stripped is stripped for good, and only display fields make a difference. */
  lemma StrippedIsClean(result: string, json: Json)
    requires RoundTrips(json)
    ensures !ForDisplay(Stripped(result, json), json)
    ensures ForDisplay(result, json) ==>
      json.parse(Stripped(result, json)) == Some(json.parse(result).value - {DISPLAY_ONLY})
    ensures Stripped(result, json) == result <==> !ForDisplay(result, json)
    ensures Stripped(result, json) == "" <==> result == ""
  {
    if ForDisplay(result, json) {
      var cleaned := json.parse(result).value - {DISPLAY_ONLY};
      assert json.parse(json.dumps(cleaned)) == Some(cleaned);
    }
  }

  // --------------------------------------------------- rendering one LLM call

  predicate HasOutcome(row: ToolRow) { row.result != "" || row.error != "" }

  /** The id of the j-th call, made up from the tag when the response has none. */
  function IdAt(call: LlmCall, tag: string, j: nat): string {
    if j < |call.responses| && call.responses[j].id.Some? then call.responses[j].id.value
    else "call_" + tag + "_" + Digits(j)
  }

  function Content(row: ToolRow, strip: bool, json: Json): string {
    var result := if strip then Stripped(row.result, json) else row.result;
    if result != "" then result else "Error: " + row.error
  }

  function Calls(call: LlmCall, tag: string): (calls: seq<ToolCall>)
    ensures |calls| == |call.responses| && forall j | 0 <= j < |calls| :: calls[j].id == IdAt(call, tag, j)
  {
    seq(|call.responses|, j requires 0 <= j < |call.responses| =>
      var r := call.responses[j]; ToolCall(IdAt(call, tag, j), r.name, r.arguments, r.given))
  }

  /** The replies from row j on. */
  function Replies(call: LlmCall, tag: string, strip: bool, json: Json, j: nat): seq<Message>
    requires j <= |call.rows|
    decreases |call.rows| - j
  {
    if j == |call.rows| then []
    else
      var rest := Replies(call, tag, strip, json, j + 1);
      if HasOutcome(call.rows[j]) then [Tool(IdAt(call, tag, j), Content(call.rows[j], strip, json))] + rest else rest
  }

  function Rendered(call: LlmCall, tag: string, strip: bool, json: Json): seq<Message> {
    if call.responses != [] then [Assistant("", Calls(call, tag))] + Replies(call, tag, strip, json, 0)
    else if call.content != "" then [Assistant(call.content, [])]
    else []
  }

  method RenderReply(call: LlmCall, tag: string, strip: bool, json: Json, j: nat) returns (reply: seq<Message>)
    requires j < |call.rows|
    ensures reply + Replies(call, tag, strip, json, j + 1) == Replies(call, tag, strip, json, j)
  {
    var row := call.rows[j];
    reply := [];
    if row.result != "" || row.error != "" {
      var result := if strip then Stripped(row.result, json) else row.result;
      reply := [Tool(IdAt(call, tag, j), if result != "" then result else "Error: " + row.error)];
    }
  }

  method RenderReplies(call: LlmCall, tag: string, strip: bool, json: Json) returns (replies: seq<Message>)
    ensures replies == Replies(call, tag, strip, json, 0)
  {
    replies := [];
    for j := 0 to |call.rows|
      invariant replies + Replies(call, tag, strip, json, j) == Replies(call, tag, strip, json, 0)
    {
      var reply := RenderReply(call, tag, strip, json, j);
      Regroup(replies, reply, Replies(call, tag, strip, json, j + 1));
      replies := replies + reply;
    }
  }

  lemma Regroup<T>(a: seq<T>, b: seq<T>, c: seq<T>)
    ensures a + (b + c) == a + b + c
  {
  }

  method Render(call: LlmCall, tag: string, strip: bool, json: Json) returns (messages: seq<Message>)
    ensures messages == Rendered(call, tag, strip, json)
  {
    messages := [];
    if call.responses != [] {
      var replies := RenderReplies(call, tag, strip, json);
      messages := [Assistant("", Calls(call, tag))] + replies;
    } else if call.content != "" {
      messages := [Assistant(call.content, [])];
    }
  }

  /** The rebuilt message has a call for each one that was answered, under the same name, with the same arguments and
      its id where it had one. */
  lemma CallsTell(call: LlmCall, tag: string, strip: bool, json: Json)
    ensures call.responses != [] ==>
      && Rendered(call, tag, strip, json) != []
      && Rendered(call, tag, strip, json)[0] == Assistant("", Calls(call, tag))
      && |Calls(call, tag)| == |call.responses|
      && forall j | 0 <= j < |call.responses| ::
           var c, r := Calls(call, tag)[j], call.responses[j];
           c.name == r.name && c.arguments == r.arguments && c.given == r.given && (r.id.Some? ==> c.id == r.id.value)
    ensures call.responses == [] ==>
      Rendered(call, tag, strip, json) == if call.content == "" then [] else [Assistant(call.content, [])]
  {
  }

  /** The reply of a row: its result, cleaned when asked to, or else its error. */
  predicate RepliesFor(m: Message, call: LlmCall, tag: string, strip: bool, json: Json, j: nat)
    requires j < |call.rows|
  {
    var row := call.rows[j];
    var result := if strip then Stripped(row.result, json) else row.result;
    && m.Tool? && m.callId == IdAt(call, tag, j)
    && (result != "" ==> m.content == result) && (result == "" ==> m.content == "Error: " + row.error)
  }

  /** Reply k is that of row idx[k], which has an outcome. */
  ghost predicate RepliesOf(replies: seq<Message>, idx: seq<nat>, call: LlmCall, tag: string, strip: bool, json: Json) {
    && |idx| == |replies|
    && (forall k | 0 <= k < |idx| ::
          idx[k] < |call.rows| && (call.rows[idx[k]].result != "" || call.rows[idx[k]].error != "")
          && RepliesFor(replies[k], call, tag, strip, json, idx[k]))
    && Rising(idx)
  }

  /** There is one reply for each row from j on that has an outcome, in the order of the rows. */
  lemma {:induction false} RepliesTell(call: LlmCall, tag: string, strip: bool, json: Json, j: nat)
    returns (idx: seq<nat>)
    requires j <= |call.rows|
    ensures RepliesOf(Replies(call, tag, strip, json, j), idx, call, tag, strip, json)
    ensures forall i | i in idx :: j <= i
    ensures forall i: nat | j <= i < |call.rows| && (call.rows[i].result != "" || call.rows[i].error != "") :: i in idx
    decreases |call.rows| - j
  {
    idx := [];
    if j < |call.rows| {
      idx := RepliesTell(call, tag, strip, json, j + 1);
      if HasOutcome(call.rows[j]) {
        FirstReply(call, tag, strip, json, j, idx);
        idx := [j] + idx;
      }
    }
  }

  ghost predicate Rising(idx: seq<nat>) { forall i, k | 0 <= i < k < |idx| :: idx[i] < idx[k] }

  lemma {:induction false} RisingFront(j: nat, idx: seq<nat>)
    requires Rising(idx) && forall i | i in idx :: j < i
    ensures Rising([j] + idx)
  {
    forall i, k | 0 <= i < k < |[j] + idx| ensures ([j] + idx)[i] < ([j] + idx)[k] {
      assert ([j] + idx)[k] == idx[k - 1] && idx[k - 1] in idx;
    }
  }

  lemma {:induction false} FirstReply(call: LlmCall, tag: string, strip: bool, json: Json, j: nat, idx: seq<nat>)
    requires j < |call.rows| && HasOutcome(call.rows[j]) && forall i | i in idx :: j < i
    requires RepliesOf(Replies(call, tag, strip, json, j + 1), idx, call, tag, strip, json)
    ensures RepliesOf(Replies(call, tag, strip, json, j), [j] + idx, call, tag, strip, json)
  {
    var first := Tool(IdAt(call, tag, j), Content(call.rows[j], strip, json));
    RisingFront(j, idx);
    AddReply(first, Replies(call, tag, strip, json, j + 1), j, idx, call, tag, strip, json);
  }

  lemma {:induction false} AddReply(m: Message, replies: seq<Message>, j: nat, idx: seq<nat>, call: LlmCall,
                                    tag: string, strip: bool, json: Json)
    requires j < |call.rows| && HasOutcome(call.rows[j]) && RepliesFor(m, call, tag, strip, json, j)
    requires RepliesOf(replies, idx, call, tag, strip, json) && Rising([j] + idx)
    ensures RepliesOf([m] + replies, [j] + idx, call, tag, strip, json)
  {
    assert forall k | 0 < k <= |idx| :: ([j] + idx)[k] == idx[k - 1] && ([m] + replies)[k] == replies[k - 1];
  }

  // ------------------------------------------------------- replaying all calls

  /** The messages after replaying the first n calls. */
  function ReplayedUpTo(calls: seq<LlmCall>, n: nat, json: Json): seq<Message>
    requires n <= |calls|
  {
    if n == 0 then []
    else
      (ReplayedUpTo(calls, n - 1, json) + if n == 1 then calls[0].request else [])
      + Rendered(calls[n - 1], Digits(n - 1), true, json)
  }

  method FullReplay(calls: seq<LlmCall>, json: Json) returns (messages: seq<Message>)
    ensures messages == ReplayedUpTo(calls, |calls|, json)
  {
    messages := [];
    for i := 0 to |calls|
      invariant messages == ReplayedUpTo(calls, i, json)
    {
      if i == 0 { messages := messages + calls[0].request; }
      var rendered := Render(calls[i], Digits(i), true, json);
      messages := messages + rendered;
    }
  }

  /** Each stored request is the one before it with that call's response and results behind it. */
  ghost predicate Chain(calls: seq<LlmCall>, json: Json) {
    forall k: nat | k + 1 < |calls| ::
      calls[k + 1].request == calls[k].request + Rendered(calls[k], Digits(k), true, json)
  }

  /** Every tool call has an id, and no reply is beyond the calls or carries a display field. */
  predicate Faithful(call: LlmCall, json: Json) {
    call.responses == [] ||
    ((forall j | 0 <= j < |call.responses| :: call.responses[j].id.Some?)
     && forall j | 0 <= j < |call.rows| && HasOutcome(call.rows[j]) ::
          j < |call.responses| && !ForDisplay(call.rows[j].result, json))
  }

  /** The rebuilt transcript: from the last stored request alone, unless there is none. */
  function Rebuilt(calls: seq<LlmCall>, json: Json): seq<Message> {
    if calls == [] || calls[|calls| - 1].request == [] then ReplayedUpTo(calls, |calls|, json)
    else calls[|calls| - 1].request + Rendered(calls[|calls| - 1], "last", false, json)
  }

  /** reconstruct_from_db. */
  method ReconstructFromDb(calls: seq<LlmCall>, json: Json) returns (messages: seq<Message>)
    ensures messages == Rebuilt(calls, json)
  {
    if calls == [] { return []; }
    var last := calls[|calls| - 1];
    if last.request == [] {
      messages := FullReplay(calls, json);
      return;
    }
    messages := Render(last, "last", false, json);
    messages := last.request + messages;
  }

  /** On a chain the fast rebuild is the replay of all calls exactly when the last call is faithful. */
  lemma {:induction false} FastIsReplayIff(calls: seq<LlmCall>, json: Json)
    requires RoundTrips(json) && calls != [] && Chain(calls, json)
    ensures calls[|calls| - 1].request == [] || Faithful(calls[|calls| - 1], json) <==>
      Rebuilt(calls, json) == ReplayedUpTo(calls, |calls|, json)
  {
    var n := |calls| - 1;
    var last := calls[n];
    ReplayedChain(calls, n, json);
    SamePrefix(last.request, Rendered(last, "last", false, json), Rendered(last, Digits(n), true, json));
    RenderedAlikeIff(last, Digits(n), json);
  }

  lemma SamePrefix<T>(p: seq<T>, a: seq<T>, b: seq<T>)
    ensures p + a == p + b <==> a == b
  {
    assert (p + a)[|p|..] == a && (p + b)[|p|..] == b;
  }

  lemma SameHead<T>(x: T, y: T, a: seq<T>, b: seq<T>)
    ensures [x] + a == [y] + b <==> x == y && a == b
  {
    assert ([x] + a)[1..] == a && ([y] + b)[1..] == b;
    assert ([x] + a)[0] == x && ([y] + b)[0] == y;
  }

  /** On a chain, replaying the first calls gives the next stored request. */
  lemma {:induction false} ReplayedChain(calls: seq<LlmCall>, n: nat, json: Json)
    requires Chain(calls, json) && n < |calls|
    ensures ReplayedUpTo(calls, n, json) + (if n == 0 then calls[0].request else []) == calls[n].request
  {
    if n > 0 {
      ReplayedChain(calls, n - 1, json);
      var k: nat := n - 1;
      assert calls[k + 1].request == calls[k].request + Rendered(calls[k], Digits(k), true, json);
    }
  }

  lemma RenderedAlikeIff(call: LlmCall, tag: string, json: Json)
    requires RoundTrips(json) && tag != "" && '0' <= tag[0] <= '9'
    ensures Rendered(call, "last", false, json) == Rendered(call, tag, true, json) <==> Faithful(call, json)
  {
    if call.responses != [] {
      SameHead(Assistant("", Calls(call, "last")), Assistant("", Calls(call, tag)),
               Replies(call, "last", false, json, 0), Replies(call, tag, true, json, 0));
      RepliesAlikeIff(call, tag, json, 0);
      CallsAlikeIff(call, tag);
    }
  }

  lemma CallsAlikeIff(call: LlmCall, tag: string)
    requires tag != "" && '0' <= tag[0] <= '9'
    ensures Calls(call, "last") == Calls(call, tag) <==>
      forall j | 0 <= j < |call.responses| :: call.responses[j].id.Some?
  {
    var fast, slow := Calls(call, "last"), Calls(call, tag);
    forall j | 0 <= j < |call.responses|
      ensures fast[j] == slow[j] <==> call.responses[j].id.Some?
    {
      IdsAlikeIff(call, tag, j);
    }
  }

  lemma IdsAlikeIff(call: LlmCall, tag: string, j: nat)
    requires tag != "" && '0' <= tag[0] <= '9'
    ensures IdAt(call, "last", j) == IdAt(call, tag, j) <==> j < |call.responses| && call.responses[j].id.Some?
  {
    var fast, slow := "call_" + "last" + "_" + Digits(j), "call_" + tag + "_" + Digits(j);
    assert fast[5] == 'l' && slow[5] == tag[0];
  }

  lemma {:induction false} RepliesAlikeIff(call: LlmCall, tag: string, json: Json, j: nat)
    requires RoundTrips(json) && tag != "" && '0' <= tag[0] <= '9' && j <= |call.rows|
    ensures Replies(call, "last", false, json, j) == Replies(call, tag, true, json, j) <==>
      forall k | j <= k < |call.rows| && HasOutcome(call.rows[k]) ::
        k < |call.responses| && call.responses[k].id.Some? && !ForDisplay(call.rows[k].result, json)
    decreases |call.rows| - j
  {
    if j < |call.rows| {
      RepliesAlikeIff(call, tag, json, j + 1);
      if HasOutcome(call.rows[j]) {
        IdsAlikeIff(call, tag, j);
        StrippedIsClean(call.rows[j].result, json);
        SameHead(Tool(IdAt(call, "last", j), Content(call.rows[j], false, json)),
                 Tool(IdAt(call, tag, j), Content(call.rows[j], true, json)),
                 Replies(call, "last", false, json, j + 1), Replies(call, tag, true, json, j + 1));
      }
    }
  }

  // ------------------------------------------------- is the result a legal transcript?

  ghost predicate DistinctIds(call: LlmCall, tag: string) {
    forall i: nat, j: nat | i < j && (j < |call.responses| || j < |call.rows|) ::
      IdAt(call, tag, i) != IdAt(call, tag, j)
  }

  /** Every tool call has its outcome stored, and there is no outcome beyond them. */
  predicate AllAnswered(call: LlmCall) {
    && |call.responses| <= |call.rows|
    && forall j | 0 <= j < |call.rows| :: HasOutcome(call.rows[j]) <==> j < |call.responses|
  }

  /** Whichever way the last call is rendered, a legal request stays legal exactly when all its tool calls
      are answered: a run must not be resumed before that. */
  lemma RenderedIsLegalIff(call: LlmCall, tag: string, strip: bool, json: Json)
    requires Legal(call.request) && DistinctIds(call, tag)
    ensures Legal(call.request + Rendered(call, tag, strip, json)) <==> call.responses == [] || AllAnswered(call)
  {
    if call.responses == [] {
      if call.content != "" { LegalText(call.request, Assistant(call.content, [])); }
      else { assert call.request + [] == call.request; }
    } else {
      var message := Assistant("", Calls(call, tag));
      var replies := Replies(call, tag, strip, json, 0);
      assert call.request + Rendered(call, tag, strip, json) == call.request + [message] + replies;
      LegalTurn(call.request, message, replies);
      RepliesAreTools(call, tag, strip, json, 0);
      LegalReplies(message, replies);
      RepliesAnswerIff(call, tag, strip, json, 0);
      assert message.calls[0..] == message.calls;
    }
  }

  /** A row has its outcome as soon as nothing is waited for. */
  ghost predicate Settled(call: LlmCall) {
    && |call.rows| == |call.responses|
    && forall j | 0 <= j < |call.rows| :: HasOutcome(call.rows[j]) <==> call.rows[j].wait.Nothing?
  }

  /** The barrier of resume_after_answer: the run goes on when none of its questions is open any more. */
  method MayResumeAfterAnswer(call: LlmCall) returns (may: bool)
    ensures may <==> forall j | 0 <= j < |call.rows| :: !call.rows[j].wait.Question?
  {
    var pending := 0;
    for j := 0 to |call.rows|
      invariant pending >= 0 && (pending == 0 <==> forall i | 0 <= i < j :: !call.rows[i].wait.Question?)
    {
      if call.rows[j].wait.Question? { pending := pending + 1; }
    }
    may := pending == 0;
  }

  /** Past the barrier the rebuilt transcript is legal exactly when no call of the same message waits for an
      approval: the barrier asks about questions only. */
  lemma BarrierSufficesIff(call: LlmCall, json: Json)
    requires Legal(call.request) && DistinctIds(call, "last") && Settled(call) && call.responses != []
    requires forall j | 0 <= j < |call.rows| :: !call.rows[j].wait.Question?
    ensures Legal(call.request + Rendered(call, "last", false, json)) <==>
      forall j | 0 <= j < |call.rows| :: !call.rows[j].wait.Approval?
  {
    RenderedIsLegalIff(call, "last", false, json);
  }

  /** resume_after_approval asks nothing: the rebuilt transcript is legal exactly when no other call of the message
      waits for anything. */
  lemma ApprovalSufficesIff(call: LlmCall, json: Json)
    requires Legal(call.request) && DistinctIds(call, "last") && Settled(call) && call.responses != []
    ensures Legal(call.request + Rendered(call, "last", false, json)) <==>
      forall j | 0 <= j < |call.rows| :: call.rows[j].wait.Nothing?
  {
    RenderedIsLegalIff(call, "last", false, json);
  }

  // ------------------------------------------------- whose outcome is it?

  /** The rows of a message: one for each call that left one, in order. */
  function Kept(outcomes: seq<Option<ToolRow>>): (rows: seq<ToolRow>)
    ensures |rows| <= |outcomes|
  {
    if outcomes == [] then []
    else
      Kept(outcomes[..|outcomes| - 1])
      + if outcomes[|outcomes| - 1].Some? then [outcomes[|outcomes| - 1].value] else []
  }

  /** The call that left row j. */
  function Origin(outcomes: seq<Option<ToolRow>>, j: nat): (i: nat)
    requires j < |Kept(outcomes)|
    ensures j <= i < |outcomes| && outcomes[i] == Some(Kept(outcomes)[j])
  {
    var rest := outcomes[..|outcomes| - 1];
    if j < |Kept(rest)| then Origin(rest, j) else |rest|
  }

  /** No call before the i-th went without a row. */
  predicate NoneLost(outcomes: seq<Option<ToolRow>>, i: nat)
    requires i <= |outcomes|
  {
    forall k | 0 <= k < i :: outcomes[k].Some?
  }

  lemma {:induction false} KeepsPlaceIff(outcomes: seq<Option<ToolRow>>, j: nat)
    requires j < |Kept(outcomes)|
    ensures Origin(outcomes, j) == j <==> NoneLost(outcomes, Origin(outcomes, j))
    decreases |outcomes|
  {
    var rest := outcomes[..|outcomes| - 1];
    if j < |Kept(rest)| {
      KeepsPlaceIff(rest, j);
    } else {
      AllKeptIff(rest);
    }
  }

  lemma {:induction false} AllKeptIff(outcomes: seq<Option<ToolRow>>)
    ensures |Kept(outcomes)| == |outcomes| <==> NoneLost(outcomes, |outcomes|)
    decreases |outcomes|
  {
    if outcomes != [] { AllKeptIff(outcomes[..|outcomes| - 1]); }
  }

  /** Row j answers the call that left it. */
  predicate AnswersOwnCall(call: LlmCall, tag: string, outcomes: seq<Option<ToolRow>>, j: nat)
    requires j < |call.rows| && call.rows == Kept(outcomes)
  {
    IdAt(call, tag, j) == IdAt(call, tag, Origin(outcomes, j))
  }

  /** A reply goes to the call whose outcome it is exactly when no call before that one went without a row. */
  lemma AnswersOwnCallIff(call: LlmCall, tag: string, outcomes: seq<Option<ToolRow>>, j: nat)
    requires DistinctIds(call, tag) && |outcomes| == |call.responses|
    requires j < |call.rows| && call.rows == Kept(outcomes)
    ensures AnswersOwnCall(call, tag, outcomes, j) <==> NoneLost(outcomes, Origin(outcomes, j))
  {
    KeepsPlaceIff(outcomes, j);
  }

  lemma {:induction false} KeepsAllPlaces(outcomes: seq<Option<ToolRow>>)
    requires NoneLost(outcomes, |outcomes|)
    ensures |Kept(outcomes)| == |outcomes|
    ensures forall j | 0 <= j < |outcomes| :: Origin(outcomes, j) == j && outcomes[j] == Some(Kept(outcomes)[j])
  {
    AllKeptIff(outcomes);
    forall j | 0 <= j < |outcomes|
      ensures Origin(outcomes, j) == j && outcomes[j] == Some(Kept(outcomes)[j])
    {
      KeepsPlaceIff(outcomes, j);
    }
  }

  lemma {:induction false} AllAnsweredIff(call: LlmCall, outcomes: seq<Option<ToolRow>>)
    requires |outcomes| == |call.responses| && call.rows == Kept(outcomes)
    ensures AllAnswered(call) <==> forall i | 0 <= i < |outcomes| :: outcomes[i].Some? && HasOutcome(outcomes[i].value)
  {
    AllKeptIff(outcomes);
    if NoneLost(outcomes, |outcomes|) { KeepsAllPlaces(outcomes); }
  }

  /** In a legal transcript every reply goes to its own call: a call without a row is one without an answer. */
  lemma {:induction false} LegalAnswersOwnCalls(call: LlmCall, tag: string, strip: bool, json: Json,
                                                outcomes: seq<Option<ToolRow>>)
    requires Legal(call.request) && DistinctIds(call, tag) && |outcomes| == |call.responses| && outcomes != []
    requires call.rows == Kept(outcomes)
    ensures Legal(call.request + Rendered(call, tag, strip, json)) <==>
      forall i | 0 <= i < |outcomes| :: outcomes[i].Some? && HasOutcome(outcomes[i].value)
    ensures Legal(call.request + Rendered(call, tag, strip, json)) ==>
      forall j | 0 <= j < |call.rows| :: AnswersOwnCall(call, tag, outcomes, j)
  {
    RenderedIsLegalIff(call, tag, strip, json);
    AllAnsweredIff(call, outcomes);
    if AllAnswered(call) { KeepsAllPlaces(outcomes); }
  }

  /** Tool messages behind a message are legal only as the answers to all its calls. */
  lemma {:induction false} LegalReplies(m: Message, replies: seq<Message>)
    requires m.Assistant? && forall k | 0 <= k < |replies| :: replies[k].Tool?
    ensures Legal([m] + replies) <==> Answers(m.calls, replies)
  {
    if |replies| == |m.calls| {
      assert ([m] + replies)[1..1 + |m.calls|] == replies && ([m] + replies)[1 + |m.calls|..] == [];
    } else if |replies| > |m.calls| {
      TooManyReplies(m, replies);
    }
  }

  lemma TooManyReplies(m: Message, replies: seq<Message>)
    requires m.Assistant? && |replies| > |m.calls| && replies[|m.calls|].Tool?
    ensures !Legal([m] + replies)
  {
    var ms := [m] + replies;
    assert ms[0] == m;
    assert ms[1 + |m.calls|..][0] == replies[|m.calls|];
  }

  lemma {:induction false} RepliesAreTools(call: LlmCall, tag: string, strip: bool, json: Json, j: nat)
    requires j <= |call.rows|
    ensures forall r | r in Replies(call, tag, strip, json, j) ::
      r.Tool? && exists i: nat | j <= i < |call.rows| :: r.callId == IdAt(call, tag, i)
    decreases |call.rows| - j
  {
    if j < |call.rows| { RepliesAreTools(call, tag, strip, json, j + 1); }
  }

  lemma {:induction false} RepliesAnswerIff(call: LlmCall, tag: string, strip: bool, json: Json, j: nat)
    requires DistinctIds(call, tag) && j <= |call.rows| && j <= |call.responses|
    ensures Answers(Calls(call, tag)[j..], Replies(call, tag, strip, json, j)) <==>
      |call.responses| <= |call.rows|
      && forall k | j <= k < |call.rows| :: HasOutcome(call.rows[k]) <==> k < |call.responses|
    decreases |call.rows| - j
  {
    var calls, replies := Calls(call, tag)[j..], Replies(call, tag, strip, json, j);
    if j == |call.rows| {
    } else if j == |call.responses| {
      NoReplies(call, tag, strip, json, j);
    } else if HasOutcome(call.rows[j]) {
      RepliesAnswerIff(call, tag, strip, json, j + 1);
      assert calls == [calls[0]] + Calls(call, tag)[j + 1..];
      AnswersSplit(calls[0], Calls(call, tag)[j + 1..], replies[0], Replies(call, tag, strip, json, j + 1));
    } else {
      RepliesAreTools(call, tag, strip, json, j + 1);
      if replies != [] {
        assert replies[0] in replies;
        assert replies[0].callId != calls[0].id;
      }
    }
  }

  lemma AnswersSplit(c: ToolCall, calls: seq<ToolCall>, m: Message, replies: seq<Message>)
    requires m.Tool? && m.callId == c.id
    ensures Answers([c] + calls, [m] + replies) <==> Answers(calls, replies)
  {
    if Answers([c] + calls, [m] + replies) {
      forall k | 0 <= k < |calls| ensures replies[k].Tool? && replies[k].callId == calls[k].id {
        assert ([c] + calls)[k + 1] == calls[k] && ([m] + replies)[k + 1] == replies[k];
      }
    }
  }

  lemma {:induction false} NoReplies(call: LlmCall, tag: string, strip: bool, json: Json, j: nat)
    requires j <= |call.rows|
    ensures Replies(call, tag, strip, json, j) == [] <==> forall k | j <= k < |call.rows| :: !HasOutcome(call.rows[k])
    decreases |call.rows| - j
  {
    if j < |call.rows| { NoReplies(call, tag, strip, json, j + 1); }
  }
}
