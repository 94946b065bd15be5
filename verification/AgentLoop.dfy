/** The loop that drives one agent: LLM calls, tool calls, nudges, limits and the ways it ends. */
module AgentLoop {
  import opened Transcript
  import opened DoneRule
  import opened Compaction
  import opened Wrappers

  // ------------------------------------------------------ calls to the LLM

  /** truncated is a finish reason of "length". */
  datatype LlmOutcome =
    | Fails(error: string)
    | Replies(content: string, calls: seq<ToolCall>, truncated: bool, promptTokens: nat)

  function Pow2(n: nat): real { if n == 0 then 1.0 else 2.0 * Pow2(n - 1) }

  lemma {:induction false} Pow2Grows(m: nat, n: nat)
    requires m <= n
    ensures 1.0 <= Pow2(m) <= Pow2(n)
    decreases n
  {
    if n > 0 { Pow2Grows(if m < n then m else m - 1, n - 1); }
  }

  /** The delay before the n-th retry, without jitter. */
  function Delay(base: real, n: nat): real { if n == 0 then base else 2.0 * Delay(base, n - 1) }

  /** The sum of the delays before the first n retries. */
  function Backoff(base: real, n: nat): real { if n == 0 then 0.0 else Backoff(base, n - 1) + Delay(base, n - 1) }

  lemma {:induction false} BackoffSum(base: real, n: nat)
    ensures Delay(base, n) == base * Pow2(n) && Backoff(base, n) == base * (Pow2(n) - 1.0)
  {
    if n > 0 { BackoffSum(base, n - 1); }
  }

  lemma {:induction false} BackoffGrows(base: real, m: nat, n: nat)
    requires base >= 0.0 && m <= n
    ensures Delay(base, n) >= 0.0 && Backoff(base, m) <= Backoff(base, n)
    decreases n
  {
    if n > 0 { BackoffGrows(base, if m < n then m else m - 1, n - 1); }
  }

  lemma Scales(a: real, b: real, x: real)
    requires 0.0 <= a <= b && x >= 0.0
    ensures 0.0 <= a * x <= b * x
  {
  }

  /** What a retry waits: the delay with up to a tenth of it on top. */
  method PauseFor(delay: real, share: real) returns (pause: real)
    requires delay >= 0.0 && 0.0 <= share <= 0.1
    ensures delay <= pause <= 1.1 * delay
  {
    Scales(share, 0.1, delay);
    pause := delay + share * delay;
  }

  /** Time spent on n retries: no less than their delays, and at most a tenth more. */
  predicate Within(waited: real, base: real, n: nat) {
    Backoff(base, n) <= waited <= 1.1 * Backoff(base, n)
  }

  /** With at most n retries the time is at most 1.1 * base * (2^n - 1). */
  lemma WaitIsBounded(waited: real, base: real, m: nat, n: nat)
    requires base >= 0.0 && m <= n && Within(waited, base, m)
    ensures waited <= 1.1 * (base * (Pow2(n) - 1.0))
  {
    BackoffGrows(base, m, n);
    BackoffSum(base, n);
  }

  /** The attempts until the LLM replies, or until no retry is left. */
  function Attempts(llm: nat -> LlmOutcome, first: nat, maxRetries: nat): (n: nat)
    ensures 1 <= n <= maxRetries + 1
    decreases maxRetries
  {
    if llm(first).Replies? || maxRetries == 0 then 1 else 1 + Attempts(llm, first + 1, maxRetries - 1)
  }

  /** All attempts but the last one fail, and the last one only when all retries are used up. */
  lemma {:induction false} AttemptsFail(llm: nat -> LlmOutcome, first: nat, maxRetries: nat)
    ensures var n := Attempts(llm, first, maxRetries);
      && (forall k | first <= k < first + n - 1 :: llm(k).Fails?)
      && (llm(first + n - 1).Fails? ==> n == maxRetries + 1)
    decreases maxRetries
  {
    if llm(first).Fails? && maxRetries > 0 { AttemptsFail(llm, first + 1, maxRetries - 1); }
  }

  /** The first success among the attempts, or the last failure, with the time spent backing off. */
  method CallLlmWithRetries(llm: nat -> LlmOutcome, first: nat, maxRetries: nat, base: real, jitter: nat -> real)
    returns (outcome: LlmOutcome, attempts: nat, waited: real)
    requires base >= 0.0 && forall k :: 0.0 <= jitter(k) <= 0.1
    ensures attempts == Attempts(llm, first, maxRetries) && outcome == llm(first + attempts - 1)
    ensures Within(waited, base, attempts - 1)
  {
    waited, attempts := 0.0, 0;
    var delay := base;
    while true
      invariant attempts <= maxRetries
      invariant delay == Delay(base, attempts) && Within(waited, base, attempts)
      invariant attempts + Attempts(llm, first + attempts, maxRetries - attempts) == Attempts(llm, first, maxRetries)
      decreases maxRetries - attempts
    {
      outcome := llm(first + attempts);
      attempts := attempts + 1;
      if outcome.Replies? || attempts == maxRetries + 1 { break; }
      BackoffGrows(base, 0, attempts - 1);
      var pause := PauseFor(delay, jitter(first + attempts));
      waited := waited + pause;
      delay := 2.0 * delay;
    }
  }

  // ------------------------------------------------------ calls to the tools

  /** suspends: the tool gives way to the other calls of its message before it answers. Interrupted is the
      cancellation that surfaces from within a tool. */
  datatype ToolOutcome = Result(content: string, pending: bool, suspends: bool) | Interrupted

  function Names(calls: seq<ToolCall>): (names: History)
    ensures |names| == |calls| && forall i | 0 <= i < |calls| :: names[i] == calls[i].name
  {
    seq(|calls|, i requires 0 <= i < |calls| => calls[i].name)
  }

  const ACCEPTED := "done"
  const REFUSED := "refused"

  /** The calls before position i that are counted when call i begins: the calls of a message begin in their
      order, and a tool is counted when it has answered. */
  function CountedBefore(calls: seq<ToolCall>, i: nat, tools: nat -> ToolOutcome): History
    requires i <= |calls|
  {
    if i == 0 then []
    else CountedBefore(calls, i - 1, tools) + if CountsAtOnce(calls, i - 1, tools) then [calls[i - 1].name] else []
  }

  predicate CountsAtOnce(calls: seq<ToolCall>, i: nat, tools: nat -> ToolOutcome)
    requires i < |calls|
  {
    calls[i].name == "done" || (tools(i).Result? && !tools(i).suspends)
  }

  /** Whether call i is a done call that was accepted when it was made. */
  predicate AcceptedWhenMade(calls: seq<ToolCall>, i: nat, rules: Rules, history: History, tools: nat -> ToolOutcome)
    requires i < |calls|
  {
    calls[i].name == "done" && Validate(calls[i].given, rules, history + CountedBefore(calls, i, tools)).None?
  }

  predicate Stopped(calls: seq<ToolCall>, i: nat, tools: nat -> ToolOutcome)
    requires i < |calls|
  {
    calls[i].name != "done" && tools(i).Interrupted?
  }

  predicate Held(calls: seq<ToolCall>, i: nat, tools: nat -> ToolOutcome)
    requires i < |calls|
  {
    calls[i].name != "done" && tools(i).Result? && tools(i).pending
  }

  /** Some tool other than done was interrupted. */
  ghost predicate Interrupts(calls: seq<ToolCall>, tools: nat -> ToolOutcome) {
    exists i | 0 <= i < |calls| :: Stopped(calls, i, tools)
  }

  /** Some tool other than done waits for a human. */
  ghost predicate Waits(calls: seq<ToolCall>, tools: nat -> ToolOutcome) {
    exists i | 0 <= i < |calls| :: Held(calls, i, tools)
  }

  /** The reply to call i: done is judged by the calls that are counted when it is made. */
  function ReplyTo(calls: seq<ToolCall>, i: nat, rules: Rules, history: History, tools: nat -> ToolOutcome): Message
    requires i < |calls|
  {
    Tool(calls[i].id,
         if calls[i].name == "done" then if AcceptedWhenMade(calls, i, rules, history, tools) then ACCEPTED else REFUSED
         else if tools(i).Result? then tools(i).content else "")
  }

  function Replied(calls: seq<ToolCall>, rules: Rules, history: History, tools: nat -> ToolOutcome): seq<Message> {
    seq(|calls|, i requires 0 <= i < |calls| => ReplyTo(calls, i, rules, history, tools))
  }

  method ExecuteCall(calls: seq<ToolCall>, i: nat, rules: Rules, history: History, counted: History,
                     tools: nat -> ToolOutcome)
    returns (reply: Message, stopped: bool, held: bool, counted': History)
    requires i < |calls| && counted == history + CountedBefore(calls, i, tools)
    ensures reply == ReplyTo(calls, i, rules, history, tools)
    ensures counted' == history + CountedBefore(calls, i + 1, tools)
    ensures stopped == Stopped(calls, i, tools) && held == Held(calls, i, tools)
  {
    counted' := counted;
    if calls[i].name == "done" {
      var verdict := Validate(calls[i].given, rules, counted);
      reply, stopped, held := Tool(calls[i].id, if verdict.None? then ACCEPTED else REFUSED), false, false;
      counted' := counted + [calls[i].name];
    } else {
      match tools(i) {
        case Interrupted => reply, stopped, held := Tool(calls[i].id, ""), true, false;
        case Result(content, pending, suspends) =>
          reply, stopped, held := Tool(calls[i].id, content), false, pending;
          if !suspends { counted' := counted + [calls[i].name]; }
      }
    }
  }

  /** What is known after the first n calls. */
  ghost predicate Executed(calls: seq<ToolCall>, n: nat, rules: Rules, history: History, tools: nat -> ToolOutcome,
                           replies: seq<Message>, interrupted: bool, pending: bool)
    requires n <= |calls|
  {
    && |replies| == n && (forall j | 0 <= j < n :: replies[j] == ReplyTo(calls, j, rules, history, tools))
    && (interrupted <==> exists j | 0 <= j < n :: Stopped(calls, j, tools))
    && (pending <==> exists j | 0 <= j < n :: Held(calls, j, tools))
  }

  lemma {:induction false} ExecutedNext(calls: seq<ToolCall>, n: nat, rules: Rules, history: History,
                                        tools: nat -> ToolOutcome, replies: seq<Message>, interrupted: bool,
                                        pending: bool)
    requires n < |calls| && Executed(calls, n, rules, history, tools, replies, interrupted, pending)
    ensures Executed(calls, n + 1, rules, history, tools, replies + [ReplyTo(calls, n, rules, history, tools)],
                     interrupted || Stopped(calls, n, tools), pending || Held(calls, n, tools))
  {
  }

  lemma {:induction false} AllExecuted(calls: seq<ToolCall>, rules: Rules, history: History, tools: nat -> ToolOutcome,
                                       replies: seq<Message>, interrupted: bool, pending: bool)
    requires Executed(calls, |calls|, rules, history, tools, replies, interrupted, pending)
    ensures (interrupted <==> Interrupts(calls, tools)) && (pending <==> Waits(calls, tools))
    ensures replies == Replied(calls, rules, history, tools) && Answers(calls, replies)
  {
  }

  /** The tool calls of one message: they begin in order, those that suspend answer later, and the replies are
      kept in order. */
  method ExecuteCalls(calls: seq<ToolCall>, rules: Rules, history: History, tools: nat -> ToolOutcome)
    returns (interrupted: bool, replies: seq<Message>, pending: bool)
    ensures interrupted <==> Interrupts(calls, tools)
    ensures pending <==> Waits(calls, tools)
    ensures replies == Replied(calls, rules, history, tools)
    ensures Answers(calls, replies)
  {
    replies, interrupted, pending := [], false, false;
    var counted := history;
    for i := 0 to |calls|
      invariant counted == history + CountedBefore(calls, i, tools)
      invariant Executed(calls, i, rules, history, tools, replies, interrupted, pending)
    {
      var reply, stopped, held;
      ExecutedNext(calls, i, rules, history, tools, replies, interrupted, pending);
      reply, stopped, held, counted := ExecuteCall(calls, i, rules, history, counted, tools);
      replies, interrupted, pending := replies + [reply], interrupted || stopped, pending || held;
    }
    AllExecuted(calls, rules, history, tools, replies, interrupted, pending);
  }

  /** _check_done_called: the first done call that the rules accept now that all calls are counted. */
  function AcceptedDone(calls: seq<ToolCall>, rules: Rules, history: History): Option<Given> {
    AcceptedFrom(calls, 0, rules, history)
  }

  function AcceptedFrom(calls: seq<ToolCall>, i: nat, rules: Rules, history: History): Option<Given>
    requires i <= |calls|
    decreases |calls| - i
  {
    if i == |calls| then None
    else if AcceptedNow(calls[i], rules, history) then Some(calls[i].given)
    else AcceptedFrom(calls, i + 1, rules, history)
  }

  predicate AcceptedNow(call: ToolCall, rules: Rules, history: History) {
    call.name == "done" && Validate(call.given, rules, history).None?
  }

  lemma {:induction false} AcceptedFromIs(calls: seq<ToolCall>, k: nat, rules: Rules, history: History) returns (i: nat)
    requires k <= |calls|
    ensures k <= i <= |calls| && forall j | k <= j < i :: !AcceptedNow(calls[j], rules, history)
    ensures i < |calls| ==> AcceptedNow(calls[i], rules, history)
    ensures AcceptedFrom(calls, k, rules, history) == if i < |calls| then Some(calls[i].given) else None
    decreases |calls| - k
  {
    i := k;
    if k < |calls| && !AcceptedNow(calls[k], rules, history) { i := AcceptedFromIs(calls, k + 1, rules, history); }
  }

  /** Either no call is an accepted done, or the i-th is the first one and gives the result. */
  lemma AcceptedDoneIsFirst(calls: seq<ToolCall>, rules: Rules, history: History) returns (i: nat)
    ensures i <= |calls| && forall j | 0 <= j < i :: !AcceptedNow(calls[j], rules, history)
    ensures i < |calls| ==> AcceptedNow(calls[i], rules, history)
    ensures AcceptedDone(calls, rules, history) == if i < |calls| then Some(calls[i].given) else None
  {
    i := AcceptedFromIs(calls, 0, rules, history);
  }

  // ---------------------------------------------------- refused and yet the end

  /** Call i is a done call that is told it was refused, and the turn then accepts it: nothing was interrupted, and
      nothing waits. */
  ghost predicate RefusedCompletes(calls: seq<ToolCall>, i: nat, rules: Rules, history: History,
                                   tools: nat -> ToolOutcome)
    requires i < |calls|
  {
    && !Interrupts(calls, tools) && !Waits(calls, tools)
    && !AcceptedWhenMade(calls, i, rules, history, tools) && AcceptedNow(calls[i], rules, history + Names(calls))
  }

  /** Some tool is not counted yet when call i begins: it comes later, or has not answered. */
  predicate Overtaken(calls: seq<ToolCall>, i: nat, tools: nat -> ToolOutcome) {
    exists j | 0 <= j < |calls| :: calls[j].name != "done" && (j > i || !CountsAtOnce(calls, j, tools))
  }

  lemma {:induction false} CountedIsPrefix(calls: seq<ToolCall>, n: nat, tools: nat -> ToolOutcome)
    requires n <= |calls| && forall j | 0 <= j < n :: CountsAtOnce(calls, j, tools)
    ensures CountedBefore(calls, n, tools) == Names(calls)[..n]
  {
    if n > 0 { CountedIsPrefix(calls, n - 1, tools); }
  }

  lemma {:induction false} CountedAtMost(calls: seq<ToolCall>, n: nat, tools: nat -> ToolOutcome, name: string)
    requires n <= |calls|
    ensures Count(CountedBefore(calls, n, tools), name) <= Count(Names(calls)[..n], name)
    ensures (exists j | 0 <= j < n :: calls[j].name == name && !CountsAtOnce(calls, j, tools)) ==>
      Count(CountedBefore(calls, n, tools), name) < Count(Names(calls)[..n], name)
  {
    if n > 0 {
      CountedAtMost(calls, n - 1, tools, name);
      assert Names(calls)[..n] == Names(calls)[..n - 1] + [calls[n - 1].name];
      CountConcat(Names(calls)[..n - 1], [calls[n - 1].name], name);
      var before := CountedBefore(calls, n - 1, tools);
      CountConcat(before, [calls[n - 1].name], name);
      assert before + [] == before;
    }
  }

  /** A tool that is not counted yet has a lower count than after the turn. */
  lemma {:induction false} FewerCounted(calls: seq<ToolCall>, i: nat, j: nat, tools: nat -> ToolOutcome)
    requires i < |calls| && j < |calls| && (j >= i || !CountsAtOnce(calls, j, tools))
    ensures Count(CountedBefore(calls, i, tools), calls[j].name) < Count(Names(calls), calls[j].name)
  {
    var names, name := Names(calls), calls[j].name;
    CountedAtMost(calls, i, tools, name);
    assert names == names[..i] + names[i..];
    CountConcat(names[..i], names[i..], name);
    if j >= i { CountsItself(names[i..], j - i); }
  }

  /** Rules and a history for which just the calls not counted yet are missing. */
  lemma {:induction false} JustMissing(calls: seq<ToolCall>, i: nat, name: string, tools: nat -> ToolOutcome)
    requires i < |calls| && calls[i].name == "done" && Summary(calls[i].given) != ""
    requires Count(CountedBefore(calls, i, tools), name) < Count(Names(calls), name)
    ensures !AcceptedWhenMade(calls, i, CallsOf(name, 1 + Count(Names(calls), name)), [name], tools)
    ensures AcceptedNow(calls[i], CallsOf(name, 1 + Count(Names(calls), name)), [name] + Names(calls))
  {
    JudgedApart(calls[i].given, name, CountedBefore(calls, i, tools), Names(calls));
  }

  /** When all tools are counted before call i, it is judged after the turn as it was when it was made. */
  lemma {:induction false} SameVerdict(calls: seq<ToolCall>, i: nat, rules: Rules, history: History,
                                       tools: nat -> ToolOutcome)
    requires i < |calls| && calls[i].name == "done" && NeverDone(rules) && !Overtaken(calls, i, tools)
    ensures AcceptedWhenMade(calls, i, rules, history, tools) <==> AcceptedNow(calls[i], rules, history + Names(calls))
  {
    var names := Names(calls);
    CountedIsPrefix(calls, i, tools);
    assert OnlyDone(names[i..]);
    DoneChangesNothing(calls[i].given, rules, history + names[..i], names[i..]);
    assert history + names == history + names[..i] + names[i..];
  }

  /** In a message whose tools all answer, a done call with a summary can be refused and yet complete the run, under
      some rules that do not require done itself, exactly when some tool comes after it or suspends. */
  lemma RefusedCompletesIff(calls: seq<ToolCall>, i: nat, tools: nat -> ToolOutcome)
    requires i < |calls| && calls[i].name == "done" && Summary(calls[i].given) != ""
    ensures (exists rules, history | NeverDone(rules) :: RefusedCompletes(calls, i, rules, history, tools)) <==>
      !Interrupts(calls, tools) && !Waits(calls, tools) && Overtaken(calls, i, tools)
  {
    if !Interrupts(calls, tools) && !Waits(calls, tools) && Overtaken(calls, i, tools) {
      var j :| 0 <= j < |calls| && calls[j].name != "done" && (j > i || !CountsAtOnce(calls, j, tools));
      FewerCounted(calls, i, j, tools);
      JustMissing(calls, i, calls[j].name, tools);
      var rules := CallsOf(calls[j].name, 1 + Count(Names(calls), calls[j].name));
      assert NeverDone(rules) && RefusedCompletes(calls, i, rules, [calls[j].name], tools);
    }
    if rules, history :| NeverDone(rules) && RefusedCompletes(calls, i, rules, history, tools) {
      if !Overtaken(calls, i, tools) { SameVerdict(calls, i, rules, history, tools); }
    }
  }

  /** Rules that require done itself can always refuse a done call and then let it complete the run. */
  lemma DoneRequiresItself(calls: seq<ToolCall>, i: nat, tools: nat -> ToolOutcome)
    requires i < |calls| && calls[i].name == "done" && Summary(calls[i].given) != ""
    requires !Interrupts(calls, tools) && !Waits(calls, tools)
    ensures RefusedCompletes(calls, i, CallsOf("done", 1 + Count(Names(calls), "done")), ["done"], tools)
  {
    FewerCounted(calls, i, i, tools);
    JustMissing(calls, i, "done", tools);
  }

  /** Then the run completes, and with this call unless an earlier one is accepted after the turn as well. */
  lemma RefusedCompletesRun(calls: seq<ToolCall>, i: nat, rules: Rules, history: History, tools: nat -> ToolOutcome)
    requires i < |calls| && RefusedCompletes(calls, i, rules, history, tools)
    ensures ReplyTo(calls, i, rules, history, tools) == Tool(calls[i].id, REFUSED)
    ensures AcceptedDone(calls, rules, history + Names(calls)).Some?
    ensures (forall j | 0 <= j < i :: !AcceptedNow(calls[j], rules, history + Names(calls))) ==>
      AcceptedDone(calls, rules, history + Names(calls)) == Some(calls[i].given)
  {
    var first := AcceptedDoneIsFirst(calls, rules, history + Names(calls));
    assert first <= i;
  }

  // ----------------------------------------------------------------- the loop

  datatype AutoReason = TooLong | CompactionLimit | ContextLimit | NoToolCall | MaxTurns

  datatype Done = ByCall(given: Given) | Auto(reason: AutoReason)

  datatype LoopResult =
    | Completed(done: Done)
    | Error(message: string)
    | Cancelled
    | Paused
    | Raised       // the cancellation that surfaced from within a tool
    | NoInput      // neither prompt nor messages
    | NoTurns      // not a single turn was allowed, which the code does not foresee

  const COMPACTION_LIMIT_MSG := "You have reached the maximum number of context compactions."
  const CONTEXT_LIMIT_MSG := "You have reached the context limit."
  const TRUNCATION_NUDGE := "[SYSTEM] Your previous response was truncated."
  const TOOL_NUDGE := "[SYSTEM] You must communicate through tool calls only."

  const MAX_ENFORCEMENT_RETRIES: nat := 3
  const MAX_TRUNCATION_RETRIES: nat := 5

  /** What a turn brought: tool calls, a truncated text, a text, or a text although only done was offered. */
  datatype Turn = Tools | Cut | Text | LimitText

  datatype Config = Config(maxTurns: int, maxRetries: nat, base: real, maxContext: int)

  /** The outside world: the LLM by attempt, tools by turn and position, cancellation by check, summaries by
      turn, and the jitter of the backoff. */
  datatype World = World(llm: nat -> LlmOutcome, tools: (nat, nat) -> ToolOutcome, cancelled: nat -> bool,
                         summary: nat -> Option<string>, jitter: nat -> real)

  /** The messages the loop starts from. */
  function Opening(initial: seq<Message>, prompt: string): seq<Message> {
    if prompt != "" && !(exists m | m in initial :: m.User?) then initial + [User(prompt)] else initial
  }

  function Repeat(r: seq<Message>, n: nat): seq<seq<Message>> { seq(n, _ => r) }

  function LimitHit(m: Meter, ms: seq<Message>, maxContext: int): (limit: Option<AutoReason>)
    requires Sound(m)
    ensures limit.Some? ==> limit.value.CompactionLimit? || limit.value.ContextLimit?
  {
    if LimitReached(m) then Some(CompactionLimit)
    else if Estimate(ms, m.ratio) > maxContext then Some(ContextLimit)
    else None
  }

  function Notice(limit: Option<AutoReason>): seq<Message> {
    if limit == Some(CompactionLimit) then [System(COMPACTION_LIMIT_MSG)]
    else if limit == Some(ContextLimit) then [System(CONTEXT_LIMIT_MSG)]
    else []
  }

  /** What the loop carries along; last are the calls of the latest message that had any. */
  datatype LoopState = LoopState(messages: seq<Message>, turns: seq<Turn>, history: History, last: seq<ToolCall>,
                                 enforcement: nat, truncation: nat)

  datatype Step = Next(state: LoopState) | Stop(result: LoopResult, state: LoopState)

  // ------------------------------------------------------ what a reply leads to

  function Kind(truncated: bool, limit: Option<AutoReason>): Turn {
    if truncated then Cut else if limit.Some? then LimitText else Text
  }

  function Cause(truncated: bool, limit: Option<AutoReason>): AutoReason {
    if truncated then TooLong else if limit.Some? then limit.value else NoToolCall
  }

  /** A reply without tool calls: the agent is nudged, or the loop finishes for it. */
  function TextStep(s: LoopState, content: string, truncated: bool, limit: Option<AutoReason>): (step: Step)
    ensures step.state.turns == s.turns + [Kind(truncated, limit)] && step.state.history == s.history
  {
    var messages := s.messages + [Assistant(content, [])];
    var s' := s.(messages := messages, turns := s.turns + [Kind(truncated, limit)],
                 truncation := s.truncation + if truncated then 1 else 0,
                 enforcement := s.enforcement + if !truncated && limit.None? then 1 else 0);
    if s'.truncation >= MAX_TRUNCATION_RETRIES || s'.enforcement >= MAX_ENFORCEMENT_RETRIES
       || (!truncated && limit.Some?)
    then Stop(Completed(Auto(Cause(truncated, limit))), s')
    else Next(s'.(messages := messages + [User(if truncated then TRUNCATION_NUDGE else TOOL_NUDGE)]))
  }

  method HandleText(s: LoopState, content: string, truncated: bool, limit: Option<AutoReason>) returns (step: Step)
    requires s.truncation < MAX_TRUNCATION_RETRIES && s.enforcement < MAX_ENFORCEMENT_RETRIES
    ensures step == TextStep(s, content, truncated, limit)
  {
    var messages := s.messages + [Assistant(content, [])];
    var s' := s.(messages := messages, turns := s.turns + [Kind(truncated, limit)]);
    if truncated {
      s' := s'.(truncation := s.truncation + 1);
      if s'.truncation >= MAX_TRUNCATION_RETRIES { return Stop(Completed(Auto(TooLong)), s'); }
      return Next(s'.(messages := messages + [User(TRUNCATION_NUDGE)]));
    }
    if limit.Some? { return Stop(Completed(Auto(limit.value)), s'); }
    s' := s'.(enforcement := s.enforcement + 1);
    if s'.enforcement >= MAX_ENFORCEMENT_RETRIES { return Stop(Completed(Auto(NoToolCall)), s'); }
    return Next(s'.(messages := messages + [User(TOOL_NUDGE)]));
  }

  /** After the tools: cancellation comes first, then a call that waits for a human, then an accepted done. */
  function Judged(s: LoopState, cancelled: bool, pending: bool, rules: Rules): (step: Step)
    ensures step.state == s
  {
    if cancelled then Stop(Cancelled, s)
    else if pending then Stop(Paused, s)
    else match AcceptedDone(s.last, rules, s.history)
      case Some(given) => Stop(Completed(ByCall(given)), s)
      case None => Next(s)
  }

  /** A reply with tool calls: all replies follow it, or, when a tool is interrupted, made up ones.
      cancelled is what the token says after the tools ran. */
  ghost function ToolStep(s: LoopState, content: string, calls: seq<ToolCall>, tools: nat -> ToolOutcome,
                          cancelled: bool, rules: Rules): (step: Step)
    ensures step.state.turns == s.turns + [Tools] && s.history <= step.state.history
  {
    var asked := s.messages + [Assistant(content, calls)];
    var s' := s.(turns := s.turns + [Tools], last := calls, enforcement := 0, truncation := 0);
    if Interrupts(calls, tools) then Stop(Raised, s'.(messages := asked + MadeUp(calls, RepliedIds(asked))))
    else
      var done := s'.(messages := asked + Replied(calls, rules, s.history, tools), history := s.history + Names(calls));
      Judged(done, cancelled, Waits(calls, tools), rules)
  }

  method HandleTools(s: LoopState, content: string, calls: seq<ToolCall>, tools: nat -> ToolOutcome, cancelled: bool,
                     rules: Rules)
    returns (step: Step)
    ensures step == ToolStep(s, content, calls, tools, cancelled, rules)
  {
    var s' := s.(messages := s.messages + [Assistant(content, calls)], turns := s.turns + [Tools], last := calls,
                 enforcement := 0, truncation := 0);
    var interrupted, replies, pending := ExecuteCalls(calls, rules, s.history, tools);
    if interrupted {
      var repaired := Repair(s'.messages, calls);
      return Stop(Raised, s'.(messages := repaired));
    }
    s' := s'.(messages := s'.messages + replies, history := s.history + Names(calls));
    if cancelled { return Stop(Cancelled, s'); }
    if pending { return Stop(Paused, s'); }
    var done := AcceptedDone(calls, rules, s'.history);
    if done.Some? { return Stop(Completed(ByCall(done.value)), s'); }
    return Next(s');
  }

  /** The outcomes of the tools in the n-th turn. */
  function ToolsAt(world: World, n: nat): nat -> ToolOutcome { (j: nat) => world.tools(n, j) }

  /** What follows when the LLM has been asked in the n-th turn: s holds the request. */
  ghost function ReplyStep(s: LoopState, reply: LlmOutcome, limit: Option<AutoReason>, rules: Rules, world: World)
    : (step: Step)
    ensures step.Next? ==> |step.state.turns| == |s.turns| + 1
  {
    match reply
    case Fails(error) => Stop(Error(error), s)
    case Replies(content, calls, truncated, _) =>
      if world.cancelled(3 * |s.turns| + 1) then Stop(Cancelled, s)
      else if calls == [] then TextStep(s, content, truncated, limit)
      else ToolStep(s, content, calls, ToolsAt(world, |s.turns|), world.cancelled(3 * |s.turns| + 2), rules)
  }

  method HandleReply(s: LoopState, reply: LlmOutcome, limit: Option<AutoReason>, rules: Rules, world: World)
    returns (step: Step)
    requires s.truncation < MAX_TRUNCATION_RETRIES && s.enforcement < MAX_ENFORCEMENT_RETRIES
    ensures step == ReplyStep(s, reply, limit, rules, world)
    ensures step.Next? ==>
      step.state.truncation < MAX_TRUNCATION_RETRIES && step.state.enforcement < MAX_ENFORCEMENT_RETRIES
  {
    if reply.Fails? {
      step := Stop(Error(reply.error), s);
    } else if world.cancelled(3 * |s.turns| + 1) {
      step := Stop(Cancelled, s);
    } else if reply.calls == [] {
      step := HandleText(s, reply.content, reply.truncated, limit);
    } else {
      step := HandleTools(s, reply.content, reply.calls, ToolsAt(world, |s.turns|),
                          world.cancelled(3 * |s.turns| + 2), rules);
    }
  }

  // -------------------------------------------------------------- turns and runs

  /** How the LLM was asked in a turn: the request, the attempts, the limit that was hit, the last answer, and
      what the compactor has learnt. */
  datatype Asked = Asked(request: seq<Message>, attempts: nat, limit: Option<AutoReason>, reply: LlmOutcome,
                         meter: Meter)

  function Learnt(m: Meter, reply: LlmOutcome, request: seq<Message>): (after: Meter)
    requires Sound(m)
    ensures Sound(after)
  {
    if reply.Replies? && reply.promptTokens != 0 then AfterCalibrate(m, reply.promptTokens, request) else m
  }

  /** The messages that the LLM is given, and the limit that was hit. */
  function Prepared(ms: seq<Message>, m: Meter, summary: Option<string>, maxContext: int)
    : (seq<Message>, Option<AutoReason>)
    requires Sound(m)
  {
    var kept := Compacted(m, ms, summary);
    var limit := LimitHit(AfterCompress(m, ms), kept, maxContext);
    (kept + Notice(limit), limit)
  }

  /** attempt is the number of requests sent so far. */
  function AskOf(s: LoopState, m: Meter, attempt: nat, cfg: Config, world: World): (a: Asked)
    requires Sound(m)
    ensures Sound(a.meter)
  {
    var (request, limit) := Prepared(s.messages, m, world.summary(|s.turns|), cfg.maxContext);
    var n := Attempts(world.llm, attempt, cfg.maxRetries);
    var reply := world.llm(attempt + n - 1);
    Asked(request, n, limit, reply, Learnt(AfterCompress(m, s.messages), reply, request))
  }

  /** What a turn leads to once the LLM has been asked. */
  ghost function StepOf(s: LoopState, a: Asked, rules: Rules, world: World): (step: Step)
    ensures step.Next? ==> |step.state.turns| == |s.turns| + 1
  {
    ReplyStep(s.(messages := a.request), a.reply, a.limit, rules, world)
  }

  datatype Ended = Ended(result: LoopResult, requests: seq<seq<Message>>, state: LoopState, meter: Meter)

  /** The run from a state on. The token is asked before each turn, and every attempt sends the request. */
  ghost function RunFrom(s: LoopState, m: Meter, requests: seq<seq<Message>>, rules: Rules, cfg: Config, world: World)
    : Ended
    requires Sound(m)
    decreases cfg.maxTurns - |s.turns|
  {
    if |s.turns| >= cfg.maxTurns then
      Ended(if s.turns == [] then NoTurns else Completed(Auto(MaxTurns)), requests, s, m)
    else if world.cancelled(3 * |s.turns|) then Ended(Cancelled, requests, s, m)
    else
      var a := AskOf(s, m, |requests|, cfg, world);
      var sent := requests + Repeat(a.request, a.attempts);
      var step := StepOf(s, a, rules, world);
      if step.Stop? then Ended(step.result, sent, step.state, a.meter)
      else RunFrom(step.state, a.meter, sent, rules, cfg, world)
  }

  function StartState(initial: seq<Message>, prompt: string, counted: History): LoopState {
    LoopState(Opening(initial, prompt), [], counted, [], 0, 0)
  }

  ghost function RunOf(initial: seq<Message>, prompt: string, counted: History, m: Meter, rules: Rules, cfg: Config,
                       world: World): Ended
    requires Sound(m)
  {
    var s := StartState(initial, prompt, counted);
    if prompt == "" && initial == [] then Ended(NoInput, [], s, m) else RunFrom(s, m, [], rules, cfg, world)
  }

  /** What the messages become before the LLM is asked, and which limit was hit. */
  method PrepareRequest(compactor: MessageCompactor, ms: seq<Message>, summary: Option<string>, maxContext: int)
    returns (request: seq<Message>, limit: Option<AutoReason>)
    requires compactor.Valid()
    modifies compactor`performed
    ensures compactor.Valid() && compactor.State() == AfterCompress(old(compactor.State()), ms)
    ensures (request, limit) == Prepared(ms, old(compactor.State()), summary, maxContext)
  {
    request := compactor.Compress(ms, summary);
    var tokens := compactor.EstimateTokens(request);
    limit := None;
    if compactor.performed >= compactor.maxCompactions {
      request, limit := request + [System(COMPACTION_LIMIT_MSG)], Some(CompactionLimit);
    } else if tokens > maxContext {
      request, limit := request + [System(CONTEXT_LIMIT_MSG)], Some(ContextLimit);
    } else {
      assert request + [] == request;
    }
  }

  lemma {:induction false} AskedIs(s: LoopState, m: Meter, m': Meter, attempt: nat, cfg: Config, world: World,
                                   request: seq<Message>, limit: Option<AutoReason>, n: nat, reply: LlmOutcome)
    requires Sound(m) && (request, limit) == Prepared(s.messages, m, world.summary(|s.turns|), cfg.maxContext)
    requires m' == AfterCompress(m, s.messages)
    requires n == Attempts(world.llm, attempt, cfg.maxRetries) && reply == world.llm(attempt + n - 1)
    ensures Asked(request, n, limit, reply, Learnt(m', reply, request)) == AskOf(s, m, attempt, cfg, world)
  {
  }

  /** The prompt size that came with an answer calibrates the compactor. */
  method Learn(compactor: MessageCompactor, reply: LlmOutcome, request: seq<Message>)
    requires compactor.Valid()
    modifies compactor
    ensures compactor.Valid() && compactor.State() == Learnt(old(compactor.State()), reply, request)
  {
    if reply.Replies? && reply.promptTokens != 0 { compactor.Calibrate(reply.promptTokens, request); }
  }

  /** The messages are prepared and go out until the LLM replies or no retry is left. */
  method AskLlm(s: LoopState, cfg: Config, world: World, attempt: nat, compactor: MessageCompactor)
    returns (a: Asked)
    requires compactor.Valid() && cfg.base >= 0.0 && forall k :: 0.0 <= world.jitter(k) <= 0.1
    modifies compactor
    ensures compactor.Valid() && compactor.State() == a.meter
    ensures a == AskOf(s, old(compactor.State()), attempt, cfg, world)
  {
    ghost var m := compactor.State();
    var request, limit := PrepareRequest(compactor, s.messages, world.summary(|s.turns|), cfg.maxContext);
    ghost var m' := compactor.State();
    var reply, attempts := Send(cfg, world, attempt);
    Learn(compactor, reply, request);
    AskedIs(s, m, m', attempt, cfg, world, request, limit, attempts, reply);
    a := Asked(request, attempts, limit, reply, compactor.State());
  }

  method Send(cfg: Config, world: World, attempt: nat) returns (reply: LlmOutcome, attempts: nat)
    requires cfg.base >= 0.0 && forall k :: 0.0 <= world.jitter(k) <= 0.1
    ensures attempts == Attempts(world.llm, attempt, cfg.maxRetries) && reply == world.llm(attempt + attempts - 1)
  {
    var waited;
    reply, attempts, waited := CallLlmWithRetries(world.llm, attempt, cfg.maxRetries, cfg.base, world.jitter);
  }

  /** One turn of a run. */
  lemma RunUnfolds(s: LoopState, m: Meter, requests: seq<seq<Message>>, rules: Rules, cfg: Config, world: World,
                   a: Asked, step: Step)
    requires Sound(m) && |s.turns| < cfg.maxTurns && !world.cancelled(3 * |s.turns|)
    requires a == AskOf(s, m, |requests|, cfg, world) && step == StepOf(s, a, rules, world)
    ensures RunFrom(s, m, requests, rules, cfg, world) ==
      if step.Stop? then Ended(step.result, requests + Repeat(a.request, a.attempts), step.state, a.meter)
      else RunFrom(step.state, a.meter, requests + Repeat(a.request, a.attempts), rules, cfg, world)
  {
  }

  /** AgentLoop.run. */
  method Run(rules: Rules, initial: seq<Message>, prompt: string, cfg: Config, world: World,
             counted: History, compactor: MessageCompactor)
    returns (result: LoopResult, requests: seq<seq<Message>>, s: LoopState)
    requires compactor.Valid() && cfg.base >= 0.0 && forall k :: 0.0 <= world.jitter(k) <= 0.1
    modifies compactor
    ensures Ended(result, requests, s, compactor.State())
      == RunOf(initial, prompt, counted, old(compactor.State()), rules, cfg, world)
  {
    requests, s := [], StartState(initial, prompt, counted);
    if prompt == "" && initial == [] { return NoInput, requests, s; }
    ghost var whole := RunFrom(s, compactor.State(), requests, rules, cfg, world);
    while |s.turns| < cfg.maxTurns
      invariant compactor.Valid()
      invariant s.truncation < MAX_TRUNCATION_RETRIES && s.enforcement < MAX_ENFORCEMENT_RETRIES
      invariant RunFrom(s, compactor.State(), requests, rules, cfg, world) == whole
      decreases cfg.maxTurns - |s.turns|
    {
      if world.cancelled(3 * |s.turns|) { return Cancelled, requests, s; }
      ghost var m := compactor.State();
      var asked := AskLlm(s, cfg, world, |requests|, compactor);
      var step := HandleReply(s.(messages := asked.request), asked.reply, asked.limit, rules, world);
      RunUnfolds(s, m, requests, rules, cfg, world, asked, step);
      requests := requests + Repeat(asked.request, asked.attempts);
      s := step.state;
      if step.Stop? { return step.result, requests, s; }
    }
    return if s.turns == [] then NoTurns else Completed(Auto(MaxTurns)), requests, s;
  }
}
