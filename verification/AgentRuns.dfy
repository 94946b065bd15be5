/** What every run of the agent loop keeps: the transcript, the checks of the token, the attempts, the budget. */
module AgentRuns {
  import opened Transcript
  import opened DoneRule
  import opened Compaction
  import opened AgentLoop
  import opened Wrappers

  /** How many turns of a kind there were since the last tool call. */
  function Since(turns: seq<Turn>, kind: Turn): nat {
    if turns == [] || turns[|turns| - 1].Tools? then 0
    else Since(turns[..|turns| - 1], kind) + if turns[|turns| - 1] == kind then 1 else 0
  }

  /** The turns since the last tool call. */
  function Quiet(turns: seq<Turn>): nat {
    if turns == [] || turns[|turns| - 1].Tools? then 0 else Quiet(turns[..|turns| - 1]) + 1
  }

  lemma {:induction false} QuietSplits(turns: seq<Turn>)
    ensures Quiet(turns) == Since(turns, Cut) + Since(turns, Text) + Since(turns, LimitText)
    decreases |turns|
  {
    if turns != [] && !turns[|turns| - 1].Tools? { QuietSplits(turns[..|turns| - 1]); }
  }

  /** No more than seven turns in a row pass without a tool call. */
  ghost predicate Lively(turns: seq<Turn>) {
    forall k | 0 <= k <= |turns| :: Quiet(turns[..k]) <= 7
  }

  lemma AddTurn(turns: seq<Turn>, t: Turn)
    ensures Since(turns + [t], Cut) == if t.Tools? then 0 else Since(turns, Cut) + if t.Cut? then 1 else 0
    ensures Since(turns + [t], Text) == if t.Tools? then 0 else Since(turns, Text) + if t.Text? then 1 else 0
    ensures Since(turns + [t], LimitText) ==
      if t.Tools? then 0 else Since(turns, LimitText) + if t.LimitText? then 1 else 0
    ensures Lively(turns) && Quiet(turns + [t]) <= 7 ==> Lively(turns + [t])
  {
    var longer := turns + [t];
    assert longer[..|turns|] == turns;
    forall k | 0 <= k <= |longer| && Lively(turns) && Quiet(longer) <= 7 ensures Quiet(longer[..k]) <= 7 {
      if k == |longer| { assert longer[..k] == longer; } else { assert longer[..k] == turns[..k]; }
    }
  }

  /** Every request is a legal transcript that begins with the original header. */
  ghost predicate Proper(requests: seq<seq<Message>>, header: seq<Message>) {
    forall r | r in requests :: Legal(r) && header <= r
  }

  lemma ProperGrows(requests: seq<seq<Message>>, header: seq<Message>, request: seq<Message>, n: nat)
    requires Proper(requests, header) && Legal(request) && header <= request
    ensures Proper(requests + Repeat(request, n), header)
  {
  }

  lemma OpeningIsLegal(initial: seq<Message>, prompt: string)
    requires Legal(initial)
    ensures Legal(Opening(initial, prompt))
  {
    LegalText(initial, User(prompt));
  }

  function Times(turns: nat, perTurn: nat): nat { if turns == 0 then 0 else Times(turns - 1, perTurn) + perTurn }

  lemma {:induction false} Budget(turn: nat, turns: nat, perTurn: nat)
    requires turn <= turns
    ensures Times(turn, perTurn) <= turns * perTurn
    decreases turns
  {
    if 0 < turn {
      Budget(turn - 1, turns - 1, perTurn);
      assert turns * perTurn == (turns - 1) * perTurn + perTurn;
    }
  }

  // --------------------------------------------------------------- the transcript

  /** What holds whenever a turn begins. */
  ghost predicate Running(s: LoopState, header: seq<Message>) {
    && Legal(s.messages) && header <= s.messages
    && Lively(s.turns)
    && s.enforcement == Since(s.turns, Text) < MAX_ENFORCEMENT_RETRIES
    && s.truncation == Since(s.turns, Cut) < MAX_TRUNCATION_RETRIES
    && Since(s.turns, LimitText) == 0
  }

  ghost predicate IsHeader(header: seq<Message>) { forall m | m in header :: Leads(m) }

  /** The transcript a cancelled tool leaves: some legal one, the message with the calls, the made up replies. */
  ghost predicate RepairedFrom(before: seq<Message>, m: Message, calls: seq<ToolCall>, messages: seq<Message>) {
    && Legal(before) && m == Assistant(m.content, calls)
    && messages == before + [m] + MadeUp(calls, RepliedIds(before + [m]))
  }

  /** What a result says of the turns, the calls and the transcript. */
  ghost predicate EndsLegally(result: LoopResult, s: LoopState, rules: Rules, world: World) {
    && Lively(s.turns)
    && match result
       case Completed(ByCall(given)) => AcceptedDone(s.last, rules, s.history) == Some(given)
       case Completed(Auto(TooLong)) => Since(s.turns, Cut) == MAX_TRUNCATION_RETRIES
       case Completed(Auto(NoToolCall)) => Since(s.turns, Text) == MAX_ENFORCEMENT_RETRIES
       case Completed(Auto(MaxTurns)) => Legal(s.messages)
       case Completed(_) => s.turns != [] && s.turns[|s.turns| - 1].LimitText?
       case Paused => Legal(s.messages) && s.turns != [] && Waits(s.last, ToolsAt(world, |s.turns| - 1))
       case Raised =>
         && s.turns != [] && Interrupts(s.last, ToolsAt(world, |s.turns| - 1))
         && exists before, m :: RepairedFrom(before, m, s.last, s.messages)
       case _ => true
  }

  /** A step either leads to the next turn or ends the run for the reason it names. */
  ghost predicate Advances(s: LoopState, step: Step, header: seq<Message>, rules: Rules, world: World) {
    && s.history <= step.state.history
    && |step.state.turns| <= |s.turns| + 1
    && if step.Next? then |step.state.turns| == |s.turns| + 1 && Running(step.state, header)
       else EndsLegally(step.result, step.state, rules, world) && EndsTurn(step.result)
  }

  /** The results that end a run in the middle of its turns. */
  predicate EndsTurn(result: LoopResult) {
    !result.NoInput? && !result.NoTurns? && result != Completed(Auto(MaxTurns))
  }

  predicate IsLimit(limit: Option<AutoReason>) {
    limit.Some? ==> limit.value.CompactionLimit? || limit.value.ContextLimit?
  }

  /** A turn without tool calls adds to one of the three counts and to no other. */
  lemma QuietTurn(s: LoopState, header: seq<Message>, kind: Turn)
    requires Running(s, header) && !kind.Tools?
    ensures Lively(s.turns + [kind])
    ensures Since(s.turns + [kind], Text) == s.enforcement + if kind.Text? then 1 else 0
    ensures Since(s.turns + [kind], Cut) == s.truncation + if kind.Cut? then 1 else 0
    ensures Since(s.turns + [kind], LimitText) == if kind.LimitText? then 1 else 0
  {
    AddTurn(s.turns, kind);
    QuietSplits(s.turns + [kind]);
  }

  /** A reply without tool calls leads to a legal transcript, or to the end when its count is full. */
  lemma TextStepKeeps(s: LoopState, content: string, truncated: bool, limit: Option<AutoReason>, rules: Rules,
                      world: World, header: seq<Message>)
    requires Running(s, header) && IsLimit(limit)
    ensures Advances(s, TextStep(s, content, truncated, limit), header, rules, world)
  {
    var messages := s.messages + [Assistant(content, [])];
    LegalText(s.messages, Assistant(content, []));
    LegalText(messages, User(if truncated then TRUNCATION_NUDGE else TOOL_NUDGE));
    QuietTurn(s, header, Kind(truncated, limit));
  }

  /** Tool calls lead to a legal transcript again, or to one that was repaired from a legal one. */
  lemma ToolStepKeeps(s: LoopState, content: string, calls: seq<ToolCall>, world: World, cancelled: bool,
                      rules: Rules, header: seq<Message>)
    requires Running(s, header)
    ensures Advances(s, ToolStep(s, content, calls, ToolsAt(world, |s.turns|), cancelled, rules), header, rules, world)
  {
    var tools, message := ToolsAt(world, |s.turns|), Assistant(content, calls);
    var step := ToolStep(s, content, calls, tools, cancelled, rules);
    AddTurn(s.turns, Tools);
    if Interrupts(calls, tools) {
      assert RepairedFrom(s.messages, message, calls, step.state.messages);
    } else {
      LegalTurn(s.messages, message, Replied(calls, rules, s.history, tools));
    }
  }

  lemma StopKeeps(s: LoopState, result: LoopResult, header: seq<Message>, rules: Rules, world: World)
    requires Running(s, header) && (result.Error? || result.Cancelled?)
    ensures Advances(s, Stop(result, s), header, rules, world)
  {
  }

  lemma ReplyStepKeeps(s: LoopState, reply: LlmOutcome, limit: Option<AutoReason>, rules: Rules, world: World,
                       header: seq<Message>)
    requires Running(s, header) && IsLimit(limit)
    ensures Advances(s, ReplyStep(s, reply, limit, rules, world), header, rules, world)
  {
    var n := |s.turns|;
    if reply.Fails? {
      StopKeeps(s, Error(reply.error), header, rules, world);
    } else if world.cancelled(3 * n + 1) {
      StopKeeps(s, Cancelled, header, rules, world);
    } else if reply.calls == [] {
      TextStepKeeps(s, reply.content, reply.truncated, limit, rules, world, header);
    } else {
      ToolStepKeeps(s, reply.content, reply.calls, world, world.cancelled(3 * n + 2), rules, header);
    }
  }

  /** The messages that go out are legal and begin with the header. */
  lemma PreparedIsLegal(ms: seq<Message>, m: Meter, summary: Option<string>, maxContext: int, header: seq<Message>)
    requires Sound(m) && Legal(ms) && header <= ms && IsHeader(header)
    ensures var (request, limit) := Prepared(ms, m, summary, maxContext);
      Legal(request) && header <= request && IsLimit(limit)
  {
    var kept := Compacted(m, ms, summary);
    if Compacts(m, ms) { CompactedIsLegal(ms, header, summary); }
    var limit := LimitHit(AfterCompress(m, ms), kept, maxContext);
    if limit.Some? { LegalText(kept, Notice(limit)[0]); }
    assert kept + [] == kept;
  }

  /** What a step promises does not depend on the messages it began with. */
  lemma SameStart(s: LoopState, s': LoopState, step: Step, header: seq<Message>, rules: Rules, world: World)
    requires s'.history == s.history && s'.turns == s.turns && Advances(s', step, header, rules, world)
    ensures Advances(s, step, header, rules, world)
  {
  }

  /** The request is legal, and its answer leads to the next turn or ends the run for the reason it names. */
  lemma TurnKeeps(s: LoopState, m: Meter, attempt: nat, rules: Rules, cfg: Config, world: World, header: seq<Message>,
                  a: Asked, step: Step)
    requires Sound(m) && Running(s, header) && IsHeader(header)
    requires a == AskOf(s, m, attempt, cfg, world) && step == StepOf(s, a, rules, world)
    ensures Legal(a.request) && header <= a.request && IsLimit(a.limit)
    ensures Advances(s, step, header, rules, world)
  {
    PreparedIsLegal(s.messages, m, world.summary(|s.turns|), cfg.maxContext, header);
    var asked := s.(messages := a.request);
    ReplyStepKeeps(asked, a.reply, a.limit, rules, world, header);
    SameStart(s, asked, step, header, rules, world);
  }

  /** The loop before a turn, with the requests sent so far. */
  ghost predicate OnTrack(s: LoopState, requests: seq<seq<Message>>, header: seq<Message>, cfg: Config) {
    && (s.turns == [] || |s.turns| <= cfg.maxTurns)
    && Running(s, header) && IsHeader(header) && Proper(requests, header)
    && |s.turns| <= |requests| <= Times(|s.turns|, cfg.maxRetries + 1)
  }

  /** What holds when a run has ended. */
  ghost predicate EndsWell(e: Ended, s: LoopState, header: seq<Message>, rules: Rules, cfg: Config, world: World) {
    && Proper(e.requests, header) && s.history <= e.state.history
    && |e.state.turns| <= |e.requests| && InBudget(e, cfg)
    && EndsLegally(e.result, e.state, rules, world)
  }

  /** At most maxTurns turns, and maxRetries + 1 attempts in each. */
  ghost predicate InBudget(e: Ended, cfg: Config) {
    if cfg.maxTurns <= 0 then e.requests == [] && e.state.turns == []
    else |e.state.turns| <= cfg.maxTurns && |e.requests| <= cfg.maxTurns * (cfg.maxRetries + 1)
  }

  lemma TurnStaysOnTrack(s: LoopState, requests: seq<seq<Message>>, rules: Rules, cfg: Config, world: World,
                         header: seq<Message>, request: seq<Message>, n: nat, step: Step, m: Meter)
    requires OnTrack(s, requests, header, cfg) && |s.turns| < cfg.maxTurns
    requires Advances(s, step, header, rules, world)
    requires Legal(request) && header <= request && 1 <= n <= cfg.maxRetries + 1
    ensures var sent := requests + Repeat(request, n);
      if step.Next? then OnTrack(step.state, sent, header, cfg)
      else EndsWell(Ended(step.result, sent, step.state, m), s, header, rules, cfg, world)
  {
    ProperGrows(requests, header, request, n);
    Budget(|s.turns| + 1, cfg.maxTurns, cfg.maxRetries + 1);
  }

  lemma CancelledOnTrack(s: LoopState, requests: seq<seq<Message>>, rules: Rules, cfg: Config, world: World,
                         header: seq<Message>, m: Meter)
    requires OnTrack(s, requests, header, cfg) && |s.turns| < cfg.maxTurns
    ensures EndsWell(Ended(Cancelled, requests, s, m), s, header, rules, cfg, world)
  {
    Budget(|s.turns|, cfg.maxTurns, cfg.maxRetries + 1);
  }

  /** From any state on track a run ends well. */
  lemma {:induction false} RunEndsWell(s: LoopState, m: Meter, requests: seq<seq<Message>>, rules: Rules, cfg: Config,
                                       world: World, header: seq<Message>)
    requires Sound(m) && OnTrack(s, requests, header, cfg)
    ensures EndsWell(RunFrom(s, m, requests, rules, cfg, world), s, header, rules, cfg, world)
    decreases cfg.maxTurns - |s.turns|
  {
    if |s.turns| >= cfg.maxTurns {
      Budget(|s.turns|, if cfg.maxTurns < 0 then 0 else cfg.maxTurns, cfg.maxRetries + 1);
    } else if world.cancelled(3 * |s.turns|) {
      CancelledOnTrack(s, requests, rules, cfg, world, header, m);
    } else {
      var a := AskOf(s, m, |requests|, cfg, world);
      var step := StepOf(s, a, rules, world);
      RunUnfolds(s, m, requests, rules, cfg, world, a, step);
      TurnKeeps(s, m, |requests|, rules, cfg, world, header, a, step);
      TurnStaysOnTrack(s, requests, rules, cfg, world, header, a.request, a.attempts, step, a.meter);
      if step.Next? {
        RunEndsWell(step.state, a.meter, requests + Repeat(a.request, a.attempts), rules, cfg, world, header);
      }
    }
  }

  // --------------------------------------------------- the checks of the token

  /** No check of the t-th turn saw the token; after the tools it is asked only when there were any. */
  ghost predicate Unseen(turns: seq<Turn>, t: nat, world: World)
    requires t < |turns|
  {
    !world.cancelled(3 * t) && !world.cancelled(3 * t + 1) && (turns[t].Tools? ==> !world.cancelled(3 * t + 2))
  }

  ghost predicate NoneSeen(turns: seq<Turn>, world: World) {
    forall t | 0 <= t < |turns| :: Unseen(turns, t, world)
  }

  /** No check but the last one saw the token: the one before the next turn, the one after the answer of the LLM, or
      the one after the tools of the last turn. */
  ghost predicate LastSeen(turns: seq<Turn>, world: World) {
    var n := |turns|;
    || (NoneSeen(turns, world) && world.cancelled(3 * n))
    || (NoneSeen(turns, world) && !world.cancelled(3 * n) && world.cancelled(3 * n + 1))
    || (n > 0 && turns[n - 1].Tools? && BeforeTools(turns, world) && world.cancelled(3 * n - 1))
  }

  /** No check before the tools of the last turn saw the token. */
  ghost predicate BeforeTools(turns: seq<Turn>, world: World) {
    var n := |turns|;
    n > 0 && NoneSeen(turns[..n - 1], world) && !world.cancelled(3 * n - 3) && !world.cancelled(3 * n - 2)
  }

  /** A run is cancelled when a check sees the token, and only then: in every other run no check has. An
      interrupted turn is not checked after its tools. */
  ghost predicate ChecksEnd(result: LoopResult, turns: seq<Turn>, world: World) {
    var n := |turns|;
    match result
    case Cancelled => LastSeen(turns, world)
    case Raised => BeforeTools(turns, world)
    case Error(_) => NoneSeen(turns, world) && !world.cancelled(3 * n)
    case _ => NoneSeen(turns, world)
  }

  ghost predicate ChecksStep(step: Step, world: World) {
    if step.Next? then NoneSeen(step.state.turns, world) else ChecksEnd(step.result, step.state.turns, world)
  }

  lemma OneMoreTurn(turns: seq<Turn>, kind: Turn, world: World)
    requires NoneSeen(turns, world) && !world.cancelled(3 * |turns|) && !world.cancelled(3 * |turns| + 1)
    ensures (kind.Tools? ==> !world.cancelled(3 * |turns| + 2)) ==> NoneSeen(turns + [kind], world)
    ensures (turns + [kind])[..|turns|] == turns
  {
    var more := turns + [kind];
    forall t | 0 <= t < |more| && !(kind.Tools? && world.cancelled(3 * |turns| + 2)) ensures Unseen(more, t, world) {
      if t < |turns| { assert Unseen(turns, t, world); }
    }
  }

  lemma TextChecks(s: LoopState, kind: Turn, step: Step, world: World)
    requires NoneSeen(s.turns, world) && !world.cancelled(3 * |s.turns|) && !world.cancelled(3 * |s.turns| + 1)
    requires !kind.Tools? && step.state.turns == s.turns + [kind]
    requires step.Stop? ==> step.result.Completed?
    ensures ChecksStep(step, world)
  {
    OneMoreTurn(s.turns, kind, world);
  }

  lemma ToolChecks(s: LoopState, step: Step, world: World)
    requires NoneSeen(s.turns, world) && !world.cancelled(3 * |s.turns|) && !world.cancelled(3 * |s.turns| + 1)
    requires step.state.turns == s.turns + [Tools]
    requires step.Stop? ==> !step.result.Error?
    requires step.Next? || !step.result.Raised? ==>
      (world.cancelled(3 * |s.turns| + 2) <==> step.Stop? && step.result.Cancelled?)
    ensures ChecksStep(step, world)
  {
    OneMoreTurn(s.turns, Tools, world);
  }

  lemma ReplyChecks(s: LoopState, reply: LlmOutcome, limit: Option<AutoReason>, rules: Rules, world: World, step: Step)
    requires NoneSeen(s.turns, world) && !world.cancelled(3 * |s.turns|)
    requires step == ReplyStep(s, reply, limit, rules, world)
    ensures ChecksStep(step, world)
  {
    if reply.Replies? && !world.cancelled(3 * |s.turns| + 1) {
      if reply.calls == [] {
        TextChecks(s, Kind(reply.truncated, limit), step, world);
      } else {
        ToolChecks(s, step, world);
      }
    }
  }

  lemma {:induction false} RunChecks(s: LoopState, m: Meter, requests: seq<seq<Message>>, rules: Rules, cfg: Config,
                                     world: World)
    requires Sound(m) && NoneSeen(s.turns, world)
    ensures var e := RunFrom(s, m, requests, rules, cfg, world); ChecksEnd(e.result, e.state.turns, world)
    decreases cfg.maxTurns - |s.turns|
  {
    if |s.turns| < cfg.maxTurns && !world.cancelled(3 * |s.turns|) {
      var a := AskOf(s, m, |requests|, cfg, world);
      var step := StepOf(s, a, rules, world);
      RunUnfolds(s, m, requests, rules, cfg, world, a, step);
      ReplyChecks(s.(messages := a.request), a.reply, a.limit, rules, world, step);
      if step.Next? {
        RunChecks(step.state, a.meter, requests + Repeat(a.request, a.attempts), rules, cfg, world);
      }
    }
  }

  // ------------------------------------------------------------- the attempts

  /** The k-th request went to the k-th attempt; a failed one is sent again. */
  ghost predicate Resent(requests: seq<seq<Message>>, n: nat, llm: nat -> LlmOutcome) {
    forall k: nat | k + 1 < n && n <= |requests| :: SentAgain(requests, k, llm)
  }

  ghost predicate SentAgain(requests: seq<seq<Message>>, k: nat, llm: nat -> LlmOutcome)
    requires k + 1 < |requests|
  {
    llm(k).Fails? ==> requests[k + 1] == requests[k]
  }

  /** The last request was sent as often as it may be and failed each time. */
  ghost predicate GaveUp(requests: seq<seq<Message>>, maxRetries: nat, llm: nat -> LlmOutcome) {
    && |requests| > maxRetries
    && forall k | |requests| - 1 - maxRetries <= k < |requests| ::
         llm(k).Fails? && requests[k] == requests[|requests| - 1]
  }

  /** Only an error leaves the last attempt unanswered, and then a turn has failed as often as it may. */
  ghost predicate AttemptsEnd(result: LoopResult, requests: seq<seq<Message>>, cfg: Config, world: World) {
    var n := |requests|;
    && Resent(requests, n, world.llm)
    && match result
       case Error(message) => GaveUp(requests, cfg.maxRetries, world.llm) && world.llm(n - 1) == Fails(message)
       case _ => LastReplied(n, world.llm)
  }

  /** The last of n attempts was answered. */
  ghost predicate LastReplied(n: nat, llm: nat -> LlmOutcome) { n == 0 || llm(n - 1).Replies? }

  lemma ResentGrows(requests: seq<seq<Message>>, request: seq<Message>, n: nat, llm: nat -> LlmOutcome)
    requires Resent(requests, |requests|, llm) && LastReplied(|requests|, llm)
    ensures var more := requests + Repeat(request, n); Resent(more, |more|, llm)
  {
    var more := requests + Repeat(request, n);
    forall k: nat | k + 1 < |more| ensures SentAgain(more, k, llm) {
      if k + 1 < |requests| { assert SentAgain(requests, k, llm); }
    }
  }

  lemma AllFail(requests: seq<seq<Message>>, request: seq<Message>, llm: nat -> LlmOutcome, maxRetries: nat)
    requires var n := Attempts(llm, |requests|, maxRetries); llm(|requests| + n - 1).Fails?
    ensures GaveUp(requests + Repeat(request, Attempts(llm, |requests|, maxRetries)), maxRetries, llm)
  {
    AttemptsFail(llm, |requests|, maxRetries);
  }

  ghost predicate AttemptsStep(step: Step, sent: seq<seq<Message>>, cfg: Config, world: World) {
    if step.Next? then Resent(sent, |sent|, world.llm) && LastReplied(|sent|, world.llm)
    else AttemptsEnd(step.result, sent, cfg, world)
  }

  /** Which results an answer has, and what they say of it. */
  ghost predicate GoesBy(step: Step, reply: LlmOutcome, limit: Option<AutoReason>) {
    && (step.Stop? ==> EndsTurn(step.result))
    && (reply.Fails? <==> step.Stop? && step.result.Error?)
    && (reply.Fails? ==> step.result == Error(reply.error))
    && (step.Stop? && step.result.Completed? && step.result.done.Auto?
        && (step.result.done.reason.CompactionLimit? || step.result.done.reason.ContextLimit?)
        ==> limit == Some(step.result.done.reason))
  }

  lemma ResultOfReply(s: LoopState, a: Asked, rules: Rules, world: World, step: Step)
    requires IsLimit(a.limit) && step == StepOf(s, a, rules, world)
    ensures GoesBy(step, a.reply, a.limit)
  {
  }

  /** The requests of a turn are out: the last attempt was answered, or the turn has failed as often as it may. */
  ghost predicate Answered(sent: seq<seq<Message>>, reply: LlmOutcome, maxRetries: nat, llm: nat -> LlmOutcome) {
    && sent != [] && Resent(sent, |sent|, llm) && reply == llm(|sent| - 1)
    && (reply.Fails? ==> GaveUp(sent, maxRetries, llm))
  }

  /** A step that goes by the answer to the last of the attempts. */
  lemma AnswerAttempts(sent: seq<seq<Message>>, reply: LlmOutcome, limit: Option<AutoReason>, step: Step, cfg: Config,
                       world: World)
    requires Answered(sent, reply, cfg.maxRetries, world.llm) && GoesBy(step, reply, limit)
    ensures AttemptsStep(step, sent, cfg, world)
  {
  }

  /** What is sent in a turn, up to the last attempt. */
  lemma {:induction false} SentInTurn(requests: seq<seq<Message>>, request: seq<Message>, reply: LlmOutcome,
                                      llm: nat -> LlmOutcome, maxRetries: nat, sent: seq<seq<Message>>)
    requires Resent(requests, |requests|, llm) && LastReplied(|requests|, llm)
    requires sent == requests + Repeat(request, Attempts(llm, |requests|, maxRetries)) && reply == llm(|sent| - 1)
    ensures Answered(sent, reply, maxRetries, llm)
  {
    ResentGrows(requests, request, Attempts(llm, |requests|, maxRetries), llm);
    if reply.Fails? { AllFail(requests, request, llm, maxRetries); }
  }

  lemma {:induction false} TurnAttempts(requests: seq<seq<Message>>, a: Asked, step: Step, cfg: Config, world: World,
                     sent: seq<seq<Message>>)
    requires Resent(requests, |requests|, world.llm) && LastReplied(|requests|, world.llm)
    requires a.attempts == Attempts(world.llm, |requests|, cfg.maxRetries)
    requires sent == requests + Repeat(a.request, a.attempts)
    requires a.reply == world.llm(|requests| + a.attempts - 1) && GoesBy(step, a.reply, a.limit)
    ensures AttemptsStep(step, sent, cfg, world)
  {
    assert |sent| - 1 == |requests| + a.attempts - 1;
    SentInTurn(requests, a.request, a.reply, world.llm, cfg.maxRetries, sent);
    AnswerAttempts(sent, a.reply, a.limit, step, cfg, world);
  }

  /** What is known of the LLM's answer in a turn. */
  lemma AskFacts(s: LoopState, m: Meter, attempt: nat, rules: Rules, cfg: Config, world: World, a: Asked, step: Step)
    requires Sound(m) && a == AskOf(s, m, attempt, cfg, world) && step == StepOf(s, a, rules, world)
    ensures IsLimit(a.limit) && GoesBy(step, a.reply, a.limit)
    ensures a.attempts == Attempts(world.llm, attempt, cfg.maxRetries)
    ensures a.reply == world.llm(attempt + a.attempts - 1)
  {
    ResultOfReply(s, a, rules, world, step);
  }

  lemma {:induction false} StepAttempts(s: LoopState, m: Meter, requests: seq<seq<Message>>, rules: Rules, cfg: Config,
                                        world: World, a: Asked, step: Step)
    requires Sound(m) && Resent(requests, |requests|, world.llm) && LastReplied(|requests|, world.llm)
    requires a == AskOf(s, m, |requests|, cfg, world) && step == StepOf(s, a, rules, world)
    ensures AttemptsStep(step, requests + Repeat(a.request, a.attempts), cfg, world)
  {
    AskFacts(s, m, |requests|, rules, cfg, world, a, step);
    TurnAttempts(requests, a, step, cfg, world, requests + Repeat(a.request, a.attempts));
  }

  lemma {:induction false} RunAttempts(s: LoopState, m: Meter, requests: seq<seq<Message>>, rules: Rules, cfg: Config,
                                       world: World)
    requires Sound(m) && Resent(requests, |requests|, world.llm) && LastReplied(|requests|, world.llm)
    ensures var e := RunFrom(s, m, requests, rules, cfg, world); AttemptsEnd(e.result, e.requests, cfg, world)
    decreases cfg.maxTurns - |s.turns|
  {
    if |s.turns| < cfg.maxTurns && !world.cancelled(3 * |s.turns|) {
      var a := AskOf(s, m, |requests|, cfg, world);
      var step := StepOf(s, a, rules, world);
      StepAttempts(s, m, requests, rules, cfg, world, a, step);
      RunUnfolds(s, m, requests, rules, cfg, world, a, step);
      if step.Next? { RunAttempts(step.state, a.meter, requests + Repeat(a.request, a.attempts), rules, cfg, world); }
    }
  }

  // ------------------------------------------------------- what a turn comes to

  /** A text ends the run when its count is full or a limit was hit; otherwise the agent is nudged, and told why. */
  lemma {:induction false} TextTurnIff(s: LoopState, content: string, truncated: bool, limit: Option<AutoReason>)
    requires s.truncation < MAX_TRUNCATION_RETRIES && s.enforcement < MAX_ENFORCEMENT_RETRIES
    ensures var step := TextStep(s, content, truncated, limit);
      && (step.Stop? <==> if truncated then s.truncation + 1 == MAX_TRUNCATION_RETRIES
                          else limit.Some? || s.enforcement + 1 == MAX_ENFORCEMENT_RETRIES)
      && (step.Stop? ==>
            && step.result ==
                 Completed(Auto(if truncated then TooLong else if limit.Some? then limit.value else NoToolCall))
            && step.state.messages == s.messages + [Assistant(content, [])])
      && (step.Next? ==>
            var nudge := if truncated then TRUNCATION_NUDGE else TOOL_NUDGE;
            step.state.messages == s.messages + [Assistant(content, []), User(nudge)])
  {
    assert forall m :: s.messages + [Assistant(content, [])] + [m] == s.messages + [Assistant(content, []), m];
  }

  function Named(calls: seq<ToolCall>, name: string): nat {
    if calls == [] then 0
    else Named(calls[..|calls| - 1], name) + if calls[|calls| - 1].name == name then 1 else 0
  }

  lemma {:induction false} CountsNames(h: History, calls: seq<ToolCall>, name: string)
    ensures Count(h + Names(calls), name) == Count(h, name) + Named(calls, name)
    decreases |calls|
  {
    if calls == [] {
      assert h + Names(calls) == h;
    } else {
      var rest := calls[..|calls| - 1];
      assert (h + Names(calls))[..|h + Names(calls)| - 1] == h + Names(rest);
      CountsNames(h, rest, name);
    }
  }

  /** The reply carries the id of the call, and what its tool says or the verdict on done. */
  predicate RepliesTo(m: Message, calls: seq<ToolCall>, j: nat, rules: Rules, history: History,
                      tools: nat -> ToolOutcome)
    requires j < |calls|
  {
    && m.Tool? && m.callId == calls[j].id
    && if calls[j].name != "done" then tools(j).Result? && m.content == tools(j).content
       else m.content == if AcceptedWhenMade(calls, j, rules, history, tools) then ACCEPTED else REFUSED
  }

  ghost predicate RepliedTo(replies: seq<Message>, calls: seq<ToolCall>, rules: Rules, history: History,
                            tools: nat -> ToolOutcome)
  {
    |replies| == |calls| && forall j | 0 <= j < |calls| :: RepliesTo(replies[j], calls, j, rules, history, tools)
  }

  lemma {:induction false} AllReplied(calls: seq<ToolCall>, rules: Rules, history: History, tools: nat -> ToolOutcome)
    requires !Interrupts(calls, tools)
    ensures RepliedTo(Replied(calls, rules, history, tools), calls, rules, history, tools)
  {
    forall j | 0 <= j < |calls|
      ensures RepliesTo(ReplyTo(calls, j, rules, history, tools), calls, j, rules, history, tools)
    {
      assert !Stopped(calls, j, tools);
    }
  }

  /** Tool calls that were not interrupted all count, each under its name, and each has its reply: what its tool says,
      or the verdict on done. */
  lemma {:induction false} ToolTurnCounts(s: LoopState, content: string, calls: seq<ToolCall>,
                                          tools: nat -> ToolOutcome, cancelled: bool, rules: Rules)
    requires !Interrupts(calls, tools)
    ensures var after := ToolStep(s, content, calls, tools, cancelled, rules).state;
      && after.history == s.history + Names(calls)
      && (forall name :: Count(after.history, name) == Count(s.history, name) + Named(calls, name))
      && after.last == calls && after.enforcement == after.truncation == 0
    ensures var after, n := ToolStep(s, content, calls, tools, cancelled, rules).state, |s.messages| + 1;
      && |after.messages| == n + |calls| && after.messages[..n] == s.messages + [Assistant(content, calls)]
      && RepliedTo(after.messages[n..], calls, rules, s.history, tools)
  {
    forall name ensures Count(s.history + Names(calls), name) == Count(s.history, name) + Named(calls, name) {
      CountsNames(s.history, calls, name);
    }
    AllReplied(calls, rules, s.history, tools);
    var asked, replies := s.messages + [Assistant(content, calls)], Replied(calls, rules, s.history, tools);
    assert (asked + replies)[..|asked|] == asked && (asked + replies)[|asked|..] == replies;
  }

  /** Tool calls end the run for just one reason: a tool was interrupted, the token is seen, a call waits for a human,
      or a done call is accepted, with the first one that is. Otherwise they lead to the next turn. */
  lemma {:induction false} ToolTurnIff(s: LoopState, content: string, calls: seq<ToolCall>, tools: nat -> ToolOutcome,
                                       cancelled: bool, rules: Rules)
    ensures var step := ToolStep(s, content, calls, tools, cancelled, rules);
      var goesOn := !Interrupts(calls, tools) && !cancelled && !Waits(calls, tools);
      var done := AcceptedDone(calls, rules, s.history + Names(calls));
      && (step == Stop(Raised, step.state) <==> Interrupts(calls, tools))
      && (step == Stop(Cancelled, step.state) <==> !Interrupts(calls, tools) && cancelled)
      && (step == Stop(Paused, step.state) <==> !Interrupts(calls, tools) && !cancelled && Waits(calls, tools))
      && (forall given :: step == Stop(Completed(ByCall(given)), step.state) <==> goesOn && done == Some(given))
      && (step.Next? <==> goesOn && done.None?)
  {
  }

  /** A done call that was refused when made and is accepted after the turn ends the run: its reply is a refusal, and
      the run completes. */
  lemma {:induction false} RefusedTurnCompletes(s: LoopState, content: string, calls: seq<ToolCall>, i: nat,
                                                tools: nat -> ToolOutcome, rules: Rules)
    requires i < |calls| && RefusedCompletes(calls, i, rules, s.history, tools)
    ensures var step := ToolStep(s, content, calls, tools, false, rules);
      && step.Stop? && step.result.Completed? && step.result.done.ByCall?
      && |s.messages| + 1 + i < |step.state.messages|
      && step.state.messages[|s.messages| + 1 + i] == Tool(calls[i].id, REFUSED)
      && ((forall j | 0 <= j < i :: !AcceptedNow(calls[j], rules, s.history + Names(calls))) ==>
            step.result.done.given == calls[i].given)
  {
    ToolTurnIff(s, content, calls, tools, false, rules);
    ToolTurnCounts(s, content, calls, tools, false, rules);
    RefusedCompletesRun(calls, i, rules, s.history, tools);
  }

  /** A turn that leads to the next one adds to the messages of the request the answer, and what follows it. */
  lemma {:induction false} TurnAppends(s: LoopState, reply: LlmOutcome, limit: Option<AutoReason>, rules: Rules,
                                       world: World, step: Step)
    requires step == ReplyStep(s, reply, limit, rules, world) && step.Next?
    ensures reply.Replies? && s.messages + [Assistant(reply.content, reply.calls)] <= step.state.messages
  {
    if reply.calls != [] {
      var tools, cancelled := ToolsAt(world, |s.turns|), world.cancelled(3 * |s.turns| + 2);
      ToolTurnIff(s, reply.content, reply.calls, tools, cancelled, rules);
      ToolTurnCounts(s, reply.content, reply.calls, tools, cancelled, rules);
    }
  }

  lemma {:induction false} KeptRequest(ms: seq<Message>, m: Meter, summary: Option<string>, maxContext: int)
    requires Sound(m) && !Compacts(m, ms)
    ensures ms <= Prepared(ms, m, summary, maxContext).0
  {
  }

  /** Unless the conversation is compacted, the next request is this one with the answer behind it, and more. */
  lemma {:induction false} NextRequestExtends(s: LoopState, m: Meter, k: nat, rules: Rules, cfg: Config, world: World,
                                              a: Asked, step: Step)
    requires Sound(m) && a == AskOf(s, m, k, cfg, world) && step == StepOf(s, a, rules, world) && step.Next?
    requires !Compacts(a.meter, step.state.messages)
    ensures a.reply.Replies?
    ensures a.request + [Assistant(a.reply.content, a.reply.calls)] <=
      Prepared(step.state.messages, a.meter, world.summary(|step.state.turns|), cfg.maxContext).0
  {
    TurnAppends(s.(messages := a.request), a.reply, a.limit, rules, world, step);
    KeptRequest(step.state.messages, a.meter, world.summary(|step.state.turns|), cfg.maxContext);
  }

  /** The messages a run starts from: the prompt follows the given ones exactly when there is one and nobody has spoken
      as the user yet. */
  lemma {:induction false} OpeningTells(initial: seq<Message>, prompt: string)
    ensures var opening := Opening(initial, prompt);
      && (opening == initial || opening == initial + [User(prompt)])
      && (opening == initial <==> prompt == "" || exists k | 0 <= k < |initial| :: initial[k].User?)
  {
    if k :| 0 <= k < |initial| && initial[k].User? { assert initial[k] in initial; }
    assert |initial + [User(prompt)]| != |initial|;
  }

  /** An answer teaches the compactor when it says how large the prompt was, and only the ratio. */
  lemma {:induction false} LearntTells(m: Meter, reply: LlmOutcome, request: seq<Message>)
    requires Sound(m)
    ensures reply.Fails? ==> Learnt(m, reply, request) == m
    ensures reply.Replies? && reply.promptTokens < 100 ==> Learnt(m, reply, request) == m
    ensures reply.Replies? && reply.promptTokens >= 100 ==>
      var seen := TotalChars(request) as real / reply.promptTokens as real;
      var told := if seen < 2.5 then 2.5 else if seen > 6.0 then 6.0 else seen;
      Learnt(m, reply, request) == m.(ratio := m.ratio + 0.3 * (told - m.ratio))
  {
    if reply.Replies? { CalibrateTells(m, reply.promptTokens, request); }
  }

  // ------------------------------------------------------ the turns of a run

  /** The answers to the attempts from k up to n. */
  function Answers(llm: nat -> LlmOutcome, k: nat, n: nat): seq<LlmOutcome>
    requires k <= n
    decreases n
  {
    if k == n then [] else Answers(llm, k, n - 1) + if llm(n - 1).Replies? then [llm(n - 1)] else []
  }

  lemma {:induction false} AnswersJoin(llm: nat -> LlmOutcome, k: nat, m: nat, n: nat)
    requires k <= m <= n
    ensures Answers(llm, k, n) == Answers(llm, k, m) + Answers(llm, m, n)
    decreases n
  {
    if m < n {
      AnswersJoin(llm, k, m, n - 1);
      var last := if llm(n - 1).Replies? then [llm(n - 1)] else [];
      assert Answers(llm, k, m) + Answers(llm, m, n - 1) + last == Answers(llm, k, m) + (Answers(llm, m, n - 1) + last);
    }
  }

  lemma {:induction false} OneAnswer(llm: nat -> LlmOutcome, k: nat, n: nat)
    requires forall j | k <= j < k + n :: llm(j).Fails?
    ensures Answers(llm, k, k + n) == []
    ensures Answers(llm, k, k + n + 1) == if llm(k + n).Replies? then [llm(k + n)] else []
    decreases n
  {
    if n > 0 { OneAnswer(llm, k, n - 1); }
  }

  /** The names of all calls in the answers. */
  function NamesIn(answers: seq<LlmOutcome>): History {
    if answers == [] then []
    else
      var last := answers[|answers| - 1];
      NamesIn(answers[..|answers| - 1]) + if last.Replies? then Names(last.calls) else []
  }

  lemma {:induction false} NamesFirst(answer: LlmOutcome, rest: seq<LlmOutcome>)
    ensures NamesIn([answer] + rest) == (if answer.Replies? then Names(answer.calls) else []) + NamesIn(rest)
    decreases |rest|
  {
    var all, first := [answer] + rest, if answer.Replies? then Names(answer.calls) else [];
    if rest == [] {
      assert all == [answer] && all[..0] == [];
    } else {
      var last := rest[|rest| - 1];
      assert all[..|all| - 1] == [answer] + rest[..|rest| - 1];
      NamesFirst(answer, rest[..|rest| - 1]);
      var names := if last.Replies? then Names(last.calls) else [];
      assert first + NamesIn(rest[..|rest| - 1]) + names == first + (NamesIn(rest[..|rest| - 1]) + names);
    }
  }

  /** A turn is of the kind that its answer makes it. */
  predicate IsTurnOf(turn: Turn, answer: LlmOutcome) {
    && answer.Replies? && (turn.Tools? <==> answer.calls != [])
    && (turn.Cut? <==> answer.calls == [] && answer.truncated)
  }

  /** Each turn belongs to one answer, in order; only a run that is cancelled right after an answer has one without a
      turn. The calls of all turns have been counted, except those of a turn that was interrupted. */
  ghost predicate TurnsTell(answers: seq<LlmOutcome>, turns: seq<Turn>, counted: History, result: LoopResult) {
    && |turns| <= |answers| && (|answers| > |turns| ==> result.Cancelled? && |answers| == |turns| + 1)
    && (forall i | 0 <= i < |turns| :: IsTurnOf(turns[i], answers[i]))
    && (result.Raised? ==> turns != [])
    && counted == NamesIn(answers[..|turns| - if result.Raised? then 1 else 0])
  }

  /** The same for one step. */
  ghost predicate StepTells(s: LoopState, reply: LlmOutcome, step: Step) {
    if step.Stop? && (step.result.Error? || (step.result.Cancelled? && |step.state.turns| == |s.turns|)) then
      (reply.Fails? <==> step.result.Error?) && step.state.turns == s.turns && step.state.history == s.history
    else
      && reply.Replies? && |step.state.turns| == |s.turns| + 1 && s.turns <= step.state.turns
      && IsTurnOf(step.state.turns[|s.turns|], reply)
      && step.state.history == s.history + if step.Stop? && step.result.Raised? then [] else Names(reply.calls)
  }

  lemma {:induction false} ReplyTells(s: LoopState, reply: LlmOutcome, limit: Option<AutoReason>, rules: Rules,
                                      world: World, step: Step)
    requires step == ReplyStep(s, reply, limit, rules, world)
    ensures StepTells(s, reply, step)
  {
    if reply.Replies? && !world.cancelled(3 * |s.turns| + 1) {
      if reply.calls == [] {
        assert s.history + Names(reply.calls) == s.history;
      } else {
        var tools, cancelled := ToolsAt(world, |s.turns|), world.cancelled(3 * |s.turns| + 2);
        if Interrupts(reply.calls, tools) {
          assert s.history + [] == s.history;
        } else {
          ToolTurnCounts(s, reply.content, reply.calls, tools, cancelled, rules);
        }
      }
    }
  }

  /** What a step that ends the run adds. */
  lemma {:induction false} TellsStop(s: LoopState, reply: LlmOutcome, step: Step)
    returns (turns: seq<Turn>, counted: History)
    requires StepTells(s, reply, step) && step.Stop? && EndsTurn(step.result)
    ensures step.state.turns == s.turns + turns && step.state.history == s.history + counted
    ensures TurnsTell(if reply.Replies? then [reply] else [], turns, counted, step.result)
  {
    turns, counted := step.state.turns[|s.turns|..], step.state.history[|s.history|..];
    if turns == [] {
      assert step.state.turns == s.turns + [];
      assert (if reply.Replies? then [reply] else [])[..0] == [];
    } else {
      assert [reply][..1] == [reply] && [reply][..0] == [];
      NamesFirst(reply, []);
      assert [reply] + [] == [reply];
    }
  }

  /** What a step adds before further turns. */
  lemma {:induction false} TellsNext(s: LoopState, reply: LlmOutcome, step: Step, answers: seq<LlmOutcome>,
                                     later: seq<Turn>, laterCounted: History, result: LoopResult)
    returns (turns: seq<Turn>, counted: History)
    requires StepTells(s, reply, step) && step.Next? && TurnsTell(answers, later, laterCounted, result)
    ensures step.state.turns + later == s.turns + turns && step.state.history + laterCounted == s.history + counted
    ensures TurnsTell([reply] + answers, turns, counted, result)
  {
    var kind := step.state.turns[|s.turns|];
    assert step.state.turns == s.turns + [kind];
    turns, counted := [kind] + later, Names(reply.calls) + laterCounted;
    assert s.turns + [kind] + later == s.turns + turns;
    assert s.history + Names(reply.calls) + laterCounted == s.history + counted;
    MoreTurns(answers, later, laterCounted, result, reply, kind);
  }

  lemma {:induction false} MoreTurns(answers: seq<LlmOutcome>, later: seq<Turn>, counted: History, result: LoopResult,
                                     reply: LlmOutcome, kind: Turn)
    requires TurnsTell(answers, later, counted, result) && IsTurnOf(kind, reply)
    ensures TurnsTell([reply] + answers, [kind] + later, Names(reply.calls) + counted, result)
  {
    var all, turns := [reply] + answers, [kind] + later;
    var n := |later| - if result.Raised? then 1 else 0;
    assert all[..n + 1] == [reply] + answers[..n];
    NamesFirst(reply, answers[..n]);
    assert forall i | 0 < i < |turns| :: turns[i] == later[i - 1] && all[i] == answers[i - 1];
  }

  /** What a run from a state adds to it, with the attempts from k on. */
  ghost predicate RunTells(s: LoopState, k: nat, e: Ended, llm: nat -> LlmOutcome, turns: seq<Turn>, counted: History) {
    && k <= |e.requests| && e.state.turns == s.turns + turns && e.state.history == s.history + counted
    && TurnsTell(Answers(llm, k, |e.requests|), turns, counted, e.result)
  }

  lemma {:induction false} NoTurnTells(s: LoopState, e: Ended, llm: nat -> LlmOutcome)
    requires e.state == s && !e.result.Raised?
    ensures RunTells(s, |e.requests|, e, llm, [], [])
  {
    assert s.turns == s.turns + [] && s.history == s.history + [];
  }

  /** One turn: the state before it, the attempts from k up to n, the answer to the last of them, and the step. */
  datatype Taken = Taken(before: LoopState, k: nat, n: nat, reply: LlmOutcome, step: Step)

  ghost predicate Takes(x: Taken, llm: nat -> LlmOutcome) {
    && StepTells(x.before, x.reply, x.step) && (x.step.Stop? ==> EndsTurn(x.step.result))
    && x.k <= x.n && Answers(llm, x.k, x.n) == if x.reply.Replies? then [x.reply] else []
  }

  /** The turns that lead from a state, after k attempts, to the end of a run. */
  ghost predicate IsTrace(trace: seq<Taken>, s: LoopState, k: nat, e: Ended, llm: nat -> LlmOutcome)
    decreases |trace|
  {
    if trace == [] then e.state == s && |e.requests| == k && !e.result.Raised?
    else
      && trace[0].before == s && trace[0].k == k && Takes(trace[0], llm)
      && if trace[0].step.Next? then IsTrace(trace[1..], trace[0].step.state, trace[0].n, e, llm)
         else e.result == trace[0].step.result && e.state == trace[0].step.state && |e.requests| == trace[0].n
  }

  lemma {:induction false} TurnTaken(s: LoopState, m: Meter, k: nat, rules: Rules, cfg: Config, world: World, a: Asked,
                                     step: Step, rest: seq<Taken>, e: Ended)
    returns (trace: seq<Taken>)
    requires Sound(m) && a == AskOf(s, m, k, cfg, world) && step == StepOf(s, a, rules, world)
    requires if step.Next? then IsTrace(rest, step.state, k + a.attempts, e, world.llm)
             else e.result == step.result && e.state == step.state && |e.requests| == k + a.attempts
    ensures IsTrace(trace, s, k, e, world.llm)
  {
    TurnTells(s, m, k, rules, cfg, world, a, step);
    trace := [Taken(s, k, k + a.attempts, a.reply, step)] + rest;
    assert trace[1..] == rest;
  }

  lemma {:induction false} RunTrace(s: LoopState, m: Meter, requests: seq<seq<Message>>, rules: Rules, cfg: Config,
                                    world: World)
    returns (trace: seq<Taken>)
    requires Sound(m)
    ensures IsTrace(trace, s, |requests|, RunFrom(s, m, requests, rules, cfg, world), world.llm)
    decreases cfg.maxTurns - |s.turns|
  {
    trace := [];
    if |s.turns| < cfg.maxTurns && !world.cancelled(3 * |s.turns|) {
      var a := AskOf(s, m, |requests|, cfg, world);
      var step := StepOf(s, a, rules, world);
      var sent := requests + Repeat(a.request, a.attempts);
      assert |sent| == |requests| + a.attempts;
      RunUnfolds(s, m, requests, rules, cfg, world, a, step);
      if step.Next? { trace := RunTrace(step.state, a.meter, sent, rules, cfg, world); }
      trace := TurnTaken(s, m, |requests|, rules, cfg, world, a, step, trace,
                         RunFrom(s, m, requests, rules, cfg, world));
    }
  }

  /** What a trace adds to the state it began with. */
  lemma {:induction false} TraceTells(trace: seq<Taken>, s: LoopState, k: nat, e: Ended, llm: nat -> LlmOutcome)
    returns (turns: seq<Turn>, counted: History)
    requires IsTrace(trace, s, k, e, llm)
    ensures RunTells(s, k, e, llm, turns, counted)
    decreases |trace|
  {
    if trace == [] {
      turns, counted := [], [];
      NoTurnTells(s, e, llm);
    } else {
      var x := trace[0];
      if x.step.Stop? {
        turns, counted := TellsStop(s, x.reply, x.step);
      } else {
        var later, laterCounted := TraceTells(trace[1..], x.step.state, x.n, e, llm);
        AnswersJoin(llm, k, x.n, |e.requests|);
        turns, counted := TellsNext(s, x.reply, x.step, Answers(llm, x.n, |e.requests|), later, laterCounted, e.result);
      }
    }
  }

  /** The turns of a run follow the answers of the LLM one by one, and the counts at its end are those it began with
      and all calls of the turns that were not interrupted. */
  lemma {:induction false} RunTurns(s: LoopState, m: Meter, requests: seq<seq<Message>>, rules: Rules, cfg: Config,
                                    world: World)
    returns (turns: seq<Turn>, counted: History)
    requires Sound(m)
    ensures RunTells(s, |requests|, RunFrom(s, m, requests, rules, cfg, world), world.llm, turns, counted)
  {
    var e := RunFrom(s, m, requests, rules, cfg, world);
    var trace := RunTrace(s, m, requests, rules, cfg, world);
    turns, counted := TraceTells(trace, s, |requests|, e, world.llm);
  }

  /** One turn takes up one answer. */
  lemma {:induction false} TurnTells(s: LoopState, m: Meter, k: nat, rules: Rules, cfg: Config, world: World, a: Asked,
                                     step: Step)
    requires Sound(m) && a == AskOf(s, m, k, cfg, world) && step == StepOf(s, a, rules, world)
    ensures Takes(Taken(s, k, k + a.attempts, a.reply, step), world.llm)
  {
    AskFacts(s, m, k, rules, cfg, world, a, step);
    AnswerTakes(s, a, k, rules, world, cfg.maxRetries, step);
  }

  lemma {:induction false} AnswerTakes(s: LoopState, a: Asked, k: nat, rules: Rules, world: World, maxRetries: nat,
                                       step: Step)
    requires step == StepOf(s, a, rules, world) && IsLimit(a.limit)
    requires a.attempts == Attempts(world.llm, k, maxRetries) && a.reply == world.llm(k + a.attempts - 1)
    ensures Takes(Taken(s, k, k + a.attempts, a.reply, step), world.llm)
  {
    TurnAnswers(k, a.attempts, a.reply, maxRetries, world.llm);
    AnswerTells(s, a, rules, world, step);
    ResultOfReply(s, a, rules, world, step);
    TakesUp(Taken(s, k, k + a.attempts, a.reply, step), a.limit, world.llm);
  }

  lemma {:induction false} TakesUp(x: Taken, limit: Option<AutoReason>, llm: nat -> LlmOutcome)
    requires StepTells(x.before, x.reply, x.step) && GoesBy(x.step, x.reply, limit) && x.k <= x.n
    requires Answers(llm, x.k, x.n) == if x.reply.Replies? then [x.reply] else []
    ensures Takes(x, llm)
  {
  }

  lemma {:induction false} AnswerTells(s: LoopState, a: Asked, rules: Rules, world: World, step: Step)
    requires step == StepOf(s, a, rules, world)
    ensures StepTells(s, a.reply, step)
  {
    var asked := s.(messages := a.request);
    ReplyTells(asked, a.reply, a.limit, rules, world, step);
    SameTells(s, asked, a.reply, step);
  }

  lemma {:induction false} SameTells(s: LoopState, s': LoopState, reply: LlmOutcome, step: Step)
    requires s'.turns == s.turns && s'.history == s.history && StepTells(s', reply, step)
    ensures StepTells(s, reply, step)
  {
  }

  lemma {:induction false} TurnAnswers(k: nat, n: nat, reply: LlmOutcome, maxRetries: nat, llm: nat -> LlmOutcome)
    requires n == Attempts(llm, k, maxRetries) && reply == llm(k + n - 1)
    ensures Answers(llm, k, k + n) == if reply.Replies? then [reply] else []
  {
    AttemptsFail(llm, k, maxRetries);
    OneAnswer(llm, k, n - 1);
  }

  // ---------------------------------------------------------------- the limits

  /** The compactor has worked as often as it may, or else the messages are estimated above the limit. */
  ghost predicate AtLimit(reason: AutoReason, m: Meter, kept: seq<Message>, maxContext: int)
    requires Sound(m)
  {
    if reason.CompactionLimit? then m.performed >= m.maxCompactions
    else reason.ContextLimit? && m.performed < m.maxCompactions && Estimate(kept, m.ratio) > maxContext
  }

  /** The messages are at a limit exactly when there is a reason for one. */
  lemma LimitHitIff(m: Meter, kept: seq<Message>, maxContext: int)
    requires Sound(m)
    ensures forall reason :: LimitHit(m, kept, maxContext) == Some(reason) <==> AtLimit(reason, m, kept, maxContext)
  {
  }

  /** The request is some messages at a limit with the notice that says at which; meter is what measured them,
      after it has learnt from the answer. */
  ghost predicate LimitTold(reason: AutoReason, request: seq<Message>, reply: LlmOutcome, meter: Meter,
                            maxContext: int)
  {
    exists m: Meter, kept: seq<Message> | Sound(m) ::
      && AtLimit(reason, m, kept, maxContext) && meter == Learnt(m, reply, request)
      && request == kept + [System(if reason.CompactionLimit? then COMPACTION_LIMIT_MSG else CONTEXT_LIMIT_MSG)]
  }

  predicate EndsAtLimit(result: LoopResult) {
    result == Completed(Auto(CompactionLimit)) || result == Completed(Auto(ContextLimit))
  }

  /** A run that ends at a limit has hit just this limit, and its last request said so. */
  ghost predicate LimitsEnd(e: Ended, maxContext: int, llm: nat -> LlmOutcome) {
    EndsAtLimit(e.result) ==>
      && e.requests != [] && (e.result.done.reason.CompactionLimit? <==> LimitReached(e.meter))
      && LimitTold(e.result.done.reason, e.requests[|e.requests| - 1], llm(|e.requests| - 1), e.meter, maxContext)
  }

  lemma {:induction false} PreparedAtLimit(ms: seq<Message>, m: Meter, summary: Option<string>, maxContext: int,
                                           reply: LlmOutcome)
    requires Sound(m)
    ensures var (request, limit) := Prepared(ms, m, summary, maxContext);
      var meter := Learnt(AfterCompress(m, ms), reply, request);
      limit.Some? ==>
        && (limit.value.CompactionLimit? <==> LimitReached(meter))
        && LimitTold(limit.value, request, reply, meter, maxContext)
  {
    var kept, after := Compacted(m, ms, summary), AfterCompress(m, ms);
    var limit := LimitHit(after, kept, maxContext);
    if limit.Some? {
      LimitHitIff(after, kept, maxContext);
      assert AtLimit(limit.value, after, kept, maxContext) && (kept + Notice(limit))[..|kept|] == kept;
    }
  }

  lemma {:induction false} AskedAtLimit(s: LoopState, m: Meter, attempt: nat, cfg: Config, world: World, a: Asked)
    requires Sound(m) && a == AskOf(s, m, attempt, cfg, world) && a.limit.Some?
    ensures a.limit.value.CompactionLimit? <==> LimitReached(a.meter)
    ensures LimitTold(a.limit.value, a.request, a.reply, a.meter, cfg.maxContext)
  {
    PreparedAtLimit(s.messages, m, world.summary(|s.turns|), cfg.maxContext, a.reply);
  }

  /** A step that goes by an answer ends at the limit that was hit, if at any. */
  lemma {:induction false} StepLimits(sent: seq<seq<Message>>, a: Asked, step: Step, maxContext: int,
                                      llm: nat -> LlmOutcome)
    requires step.Stop? && GoesBy(step, a.reply, a.limit)
    requires sent != [] && sent[|sent| - 1] == a.request && a.reply == llm(|sent| - 1)
    requires a.limit.Some? ==>
      && (a.limit.value.CompactionLimit? <==> LimitReached(a.meter))
      && LimitTold(a.limit.value, a.request, a.reply, a.meter, maxContext)
    ensures LimitsEnd(Ended(step.result, sent, step.state, a.meter), maxContext, llm)
  {
  }

  lemma LastSent(requests: seq<seq<Message>>, request: seq<Message>, n: nat)
    requires n > 0
    ensures var sent := requests + Repeat(request, n); |sent| == |requests| + n && sent[|sent| - 1] == request
  {
  }

  lemma {:induction false} RunLimits(s: LoopState, m: Meter, requests: seq<seq<Message>>, rules: Rules, cfg: Config,
                                     world: World)
    requires Sound(m)
    ensures LimitsEnd(RunFrom(s, m, requests, rules, cfg, world), cfg.maxContext, world.llm)
    decreases cfg.maxTurns - |s.turns|
  {
    if |s.turns| < cfg.maxTurns && !world.cancelled(3 * |s.turns|) {
      var a := AskOf(s, m, |requests|, cfg, world);
      var step := StepOf(s, a, rules, world);
      RunUnfolds(s, m, requests, rules, cfg, world, a, step);
      if step.Next? { RunLimits(step.state, a.meter, requests + Repeat(a.request, a.attempts), rules, cfg, world); }
      AskFacts(s, m, |requests|, rules, cfg, world, a, step);
      if a.limit.Some? { AskedAtLimit(s, m, |requests|, cfg, world, a); }
      LastSent(requests, a.request, a.attempts);
      if step.Stop? { StepLimits(requests + Repeat(a.request, a.attempts), a, step, cfg.maxContext, world.llm); }
    }
  }

  // ----------------------------------------------------------------- every run

  /** Every request of every run is a legal transcript that begins with the original header; turns and attempts
      stay within budget, and each way to end has the cause it names. */
  lemma {:induction false} EveryRun(initial: seq<Message>, prompt: string, counted: History, m: Meter, rules: Rules,
                                    cfg: Config, world: World)
    requires Sound(m) && Legal(initial)
    ensures var s, e := StartState(initial, prompt, counted), RunOf(initial, prompt, counted, m, rules, cfg, world);
      && (e.result.NoInput? <==> prompt == "" && initial == [])
      && EndsWell(e, s, Header(s.messages), rules, cfg, world)
      && ChecksEnd(e.result, e.state.turns, world)
      && AttemptsEnd(e.result, e.requests, cfg, world)
      && LimitsEnd(e, cfg.maxContext, world.llm)
      && counted <= e.state.history
      && TurnsTell(Answers(world.llm, 0, |e.requests|), e.state.turns, e.state.history[|counted|..], e.result)
  {
    var s := StartState(initial, prompt, counted);
    OpeningIsLegal(initial, prompt);
    if prompt == "" && initial == [] {
      assert s.messages == [];
    } else {
      RunEndsWell(s, m, [], rules, cfg, world, Header(s.messages));
      RunChecks(s, m, [], rules, cfg, world);
      RunAttempts(s, m, [], rules, cfg, world);
      RunLimits(s, m, [], rules, cfg, world);
      HasInput(s, m, [], rules, cfg, world);
      var turns, more := RunTurns(s, m, [], rules, cfg, world);
      assert [] + turns == turns && (counted + more)[|counted|..] == more;
    }
  }

  /** Only a run without prompt and messages has no input, and only one without turns has none. */
  lemma {:induction false} HasInput(s: LoopState, m: Meter, requests: seq<seq<Message>>, rules: Rules, cfg: Config,
                                    world: World)
    requires Sound(m)
    ensures var e := RunFrom(s, m, requests, rules, cfg, world);
      && !e.result.NoInput?
      && (e.result.NoTurns? <==> s.turns == [] && cfg.maxTurns <= 0)
      && (e.result == Completed(Auto(MaxTurns)) ==> |e.state.turns| >= cfg.maxTurns)
    decreases cfg.maxTurns - |s.turns|
  {
    if |s.turns| < cfg.maxTurns && !world.cancelled(3 * |s.turns|) {
      var a := AskOf(s, m, |requests|, cfg, world);
      var step := StepOf(s, a, rules, world);
      RunUnfolds(s, m, requests, rules, cfg, world, a, step);
      AskFacts(s, m, |requests|, rules, cfg, world, a, step);
      if step.Next? { HasInput(step.state, a.meter, requests + Repeat(a.request, a.attempts), rules, cfg, world); }
    }
  }
}
