/** Agents that spawn agents: how deep, along which edges, and how a pause travels up. */
module Subagents {
  import opened Wrappers

  // --------------------------------------------- what the outside world decides

  /** A run turn by turn, as the LLM, the tools and the humans make it. */
  datatype Script = Script(turns: seq<Turn>, raises: bool)

  /** The flags say whether the cancellation token was seen set: before the turn, after the LLM answered,
      and after the tools ran. */
  datatype Turn = Turn(seenFirst: bool, llmFails: bool, seenNext: bool, uses: seq<Use>, seenLast: bool, done: bool)

  /** Waits: for an approval, an answer or a sandbox. */
  datatype Use = Replies | Waits | Spawns(specs: seq<Spec>)

  /** Malformed: a spawn request without an agent or prompt. seen: the token after the child has returned. */
  datatype Spec = Malformed | Asks(agent: string, child: Script, seen: bool)

  /** The subagents each agent definition allows, and the depth limit. */
  datatype Env = Env(allowed: map<string, seq<string>>, maxDepth: int)

  // ------------------------------------------------------------------ what results

  datatype LoopStatus = Completed | Paused | Cancelled | Error | Raised

  datatype RunStatus = COMPLETED | FAILED | PAUSED | PAUSED_USER

  datatype EntryStatus = Success | Failure | Pause | Cancel

  datatype Entry = Entry(status: EntryStatus, run: Option<Run>)

  /** One executed tool call; entries is empty for tools other than subagents. */
  datatype Call = Call(pending: bool, entries: seq<Entry>)

  datatype Run = Run(agent: string, depth: nat, loop: LoopStatus, status: RunStatus, calls: seq<Call>)

  predicate Stopped(status: RunStatus) { status.PAUSED? || status.PAUSED_USER? }

  predicate Holds(e: Entry) { e.status.Pause? || e.status.Cancel? }

  // --------------------------------------------------------------------- running

  function Allowed(agent: string, env: Env): seq<string> {
    if agent in env.allowed then env.allowed[agent] else []
  }

  /** What spawn_one records for a child whose loop has returned. */
  function StatusOf(loop: LoopStatus, seen: bool): RunStatus {
    if loop.Raised? then FAILED
    else if seen then PAUSED_USER
    else if loop.Paused? then PAUSED
    else COMPLETED
  }

  /** What run_agent records for a run that was taken from the plan: it does not ask the token again, and an error of
      the LLM is raised. */
  function RootStatus(loop: LoopStatus): RunStatus {
    match loop
    case Completed => COMPLETED
    case Paused => PAUSED
    case Cancelled => PAUSED_USER
    case Error => FAILED
    case Raised => FAILED
  }

  function EntryOf(status: RunStatus): EntryStatus {
    match status case COMPLETED => Success case FAILED => Failure case PAUSED => Pause case PAUSED_USER => Cancel
  }

  function RunAgent(agent: string, depth: nat, script: Script, seen: bool, env: Env): Run
    decreases script, 3
  {
    var (loop, calls) := RunLoop(agent, depth, script, 0, env);
    Run(agent, depth, loop, StatusOf(loop, seen), calls)
  }

  /** The loop from turn k on: how it ends, and the calls it makes. */
  function RunLoop(agent: string, depth: nat, script: Script, k: nat, env: Env): (LoopStatus, seq<Call>)
    requires k <= |script.turns|
    decreases script, 2, |script.turns| - k
  {
    if k == |script.turns| then (if script.raises then Raised else Completed, [])
    else
      var t := script.turns[k];
      if t.seenFirst then (Cancelled, [])
      else if t.llmFails then (Error, [])
      else if t.seenNext then (Cancelled, [])
      else
        var calls := seq(|t.uses|, j requires 0 <= j < |t.uses| => RunUse(agent, depth, t.uses[j], env));
        if t.seenLast then (Cancelled, calls)
        else if exists c | c in calls :: c.pending then (Paused, calls)
        else if t.done then (Completed, calls)
        else
          var (loop, later) := RunLoop(agent, depth, script, k + 1, env);
          (loop, calls + later)
  }

  function RunUse(agent: string, depth: nat, use: Use, env: Env): Call
    decreases use, 1
  {
    match use
    case Replies => Call(false, [])
    case Waits => Call(true, [])
    case Spawns(specs) =>
      if Allowed(agent, env) == [] then Call(false, [])
      else
        var entries := seq(|specs|, j requires 0 <= j < |specs| => SpawnOne(agent, depth, specs[j], env));
        Call(exists e | e in entries :: Holds(e), entries)
  }

  function SpawnOne(agent: string, depth: nat, spec: Spec, env: Env): Entry
    decreases spec, 0
  {
    match spec
    case Malformed => Entry(Cancel, None)
    case Asks(name, child, seen) =>
      if name !in Allowed(agent, env) || depth + 1 > env.maxDepth || name !in env.allowed then Entry(Failure, None)
      else
        var run := RunAgent(name, depth + 1, child, seen, env);
        Entry(EntryOf(run.status), Some(run))
  }

  /** The request is malformed, or its child has stopped. */
  predicate HoldsUp(agent: string, depth: nat, spec: Spec, env: Env) {
    || spec.Malformed?
    || (var run := SpawnOne(agent, depth, spec, env).run; run.Some? && Stopped(run.value.status))
  }

  lemma {:induction false} HoldsIff(agent: string, depth: nat, spec: Spec, env: Env)
    ensures Holds(SpawnOne(agent, depth, spec, env)) <==> HoldsUp(agent, depth, spec, env)
  {
    var e := SpawnOne(agent, depth, spec, env);
    assert e.run.Some? ==> e.status == EntryOf(e.run.value.status);
  }

  /** A call waits for a human, for a request that is malformed, or for a child that has stopped; an agent without
      subagents only gets an error. */
  lemma UseWaitsIff(agent: string, depth: nat, use: Use, env: Env)
    ensures var call := RunUse(agent, depth, use, env);
      && (call.pending <==>
            || use.Waits?
            || (use.Spawns? && Allowed(agent, env) != []
                && exists j | 0 <= j < |use.specs| :: HoldsUp(agent, depth, use.specs[j], env)))
      && (!use.Spawns? || Allowed(agent, env) == [] ==> call.entries == [])
      && (use.Spawns? && Allowed(agent, env) != [] ==>
            |call.entries| == |use.specs|
            && forall j | 0 <= j < |use.specs| :: call.entries[j] == SpawnOne(agent, depth, use.specs[j], env))
  {
    if use.Spawns? && Allowed(agent, env) != [] {
      var entries := RunUse(agent, depth, use, env).entries;
      forall j | 0 <= j < |use.specs|
        ensures entries[j] in entries && (Holds(entries[j]) <==> HoldsUp(agent, depth, use.specs[j], env))
      {
        HoldsIff(agent, depth, use.specs[j], env);
      }
    }
  }

  // ----------------------------------------------------------- how a loop ends

  ghost predicate SomeUseWaits(agent: string, depth: nat, t: Turn, env: Env) {
    exists u | 0 <= u < |t.uses| :: RunUse(agent, depth, t.uses[u], env).pending
  }

  /** The turn is the last one, for whatever reason. */
  ghost predicate Ends(agent: string, depth: nat, t: Turn, env: Env) {
    t.seenFirst || t.llmFails || t.seenNext || t.seenLast || t.done || SomeUseWaits(agent, depth, t, env)
  }

  lemma {:induction false} WaitsInCalls(agent: string, depth: nat, t: Turn, env: Env, calls: seq<Call>)
    requires |calls| == |t.uses| && forall u | 0 <= u < |calls| :: calls[u] == RunUse(agent, depth, t.uses[u], env)
    ensures SomeUseWaits(agent, depth, t, env) <==> exists c | c in calls :: c.pending
  {
    if SomeUseWaits(agent, depth, t, env) {
      var u :| 0 <= u < |t.uses| && RunUse(agent, depth, t.uses[u], env).pending;
      assert calls[u] in calls;
    }
  }

  ghost predicate FirstEnd(agent: string, depth: nat, script: Script, from: nat, env: Env, k: nat) {
    && from <= k < |script.turns| && Ends(agent, depth, script.turns[k], env)
    && forall j | from <= j < k :: !Ends(agent, depth, script.turns[j], env)
  }

  ghost predicate NoEnd(agent: string, depth: nat, script: Script, from: nat, env: Env) {
    forall j | from <= j < |script.turns| :: !Ends(agent, depth, script.turns[j], env)
  }

  /** The token was seen before the LLM failed, or at any check when it answered. */
  predicate TurnCancelled(t: Turn) { t.seenFirst || (!t.llmFails && (t.seenNext || t.seenLast)) }

  predicate TurnFails(t: Turn) { !t.seenFirst && t.llmFails }

  /** The first turn that ends a loop says how: cancellation comes first, then a call that waits, then done. Without
      such a turn the loop raises or runs out of turns. */
  lemma {:induction false} LoopEndIff(agent: string, depth: nat, script: Script, from: nat, env: Env)
    requires from <= |script.turns|
    ensures var loop := RunLoop(agent, depth, script, from, env).0;
      && (NoEnd(agent, depth, script, from, env) ==> loop == if script.raises then Raised else Completed)
      && forall k: nat | FirstEnd(agent, depth, script, from, env, k) ::
           var t := script.turns[k];
           && (loop.Cancelled? <==> TurnCancelled(t)) && (loop.Error? <==> TurnFails(t))
           && (loop.Paused? <==> !TurnCancelled(t) && !TurnFails(t) && SomeUseWaits(agent, depth, t, env))
           && (loop.Completed? <==> !TurnCancelled(t) && !TurnFails(t) && !SomeUseWaits(agent, depth, t, env))
    decreases |script.turns| - from
  {
    if from < |script.turns| {
      var t := script.turns[from];
      var calls := seq(|t.uses|, j requires 0 <= j < |t.uses| => RunUse(agent, depth, t.uses[j], env));
      WaitsInCalls(agent, depth, t, env, calls);
      if !Ends(agent, depth, t, env) {
        LoopEndIff(agent, depth, script, from + 1, env);
        forall k: nat | FirstEnd(agent, depth, script, from, env, k)
          ensures FirstEnd(agent, depth, script, from + 1, env, k) {}
      } else {
        assert forall k: nat | FirstEnd(agent, depth, script, from, env, k) :: k == from;
      }
    }
  }

  /** The uses of the turns from one on up to another. */
  function Uses(script: Script, from: nat, to: nat): seq<Use>
    requires from <= to <= |script.turns|
    decreases |script.turns| - from
  {
    if from == to then [] else script.turns[from].uses + Uses(script, from + 1, to)
  }

  /** The loop runs the tools of all turns before the one that ends it, and of this one unless it was cancelled or
      failed before its tools. */
  lemma {:induction false} CallsMade(agent: string, depth: nat, script: Script, from: nat, env: Env, ran: nat)
    requires from <= ran <= |script.turns|
    requires forall j | from <= j < ran - 1 :: !Ends(agent, depth, script.turns[j], env)
    requires ran > from ==>
      (var t := script.turns[ran - 1]; !t.seenFirst && !t.llmFails && !t.seenNext)
    requires ran < |script.turns| ==>
      ((ran > from && Ends(agent, depth, script.turns[ran - 1], env))
      || (var t := script.turns[ran]; t.seenFirst || t.llmFails || t.seenNext))
    ensures var calls := RunLoop(agent, depth, script, from, env).1;
      && |calls| == |Uses(script, from, ran)|
      && forall i | 0 <= i < |calls| :: calls[i] == RunUse(agent, depth, Uses(script, from, ran)[i], env)
    decreases |script.turns| - from
  {
    if from < |script.turns| && from < ran {
      var t := script.turns[from];
      var calls := seq(|t.uses|, j requires 0 <= j < |t.uses| => RunUse(agent, depth, t.uses[j], env));
      WaitsInCalls(agent, depth, t, env, calls);
      if Ends(agent, depth, t, env) {
        assert ran == from + 1;
        assert Uses(script, from, ran) == t.uses + [];
      } else {
        CallsMade(agent, depth, script, from + 1, env, ran);
      }
    }
  }

  // ------------------------------------------------------- what a parent is told

  ghost predicate Started(agent: string, depth: nat, spec: Spec, env: Env) {
    spec.Asks? && spec.agent in Allowed(agent, env) && depth + 1 <= env.maxDepth && spec.agent in env.allowed
  }

  /** The child's loop raises: no turn ends it before. */
  ghost predicate ChildRaises(depth: nat, spec: Spec, env: Env)
    requires spec.Asks?
  {
    NoEnd(spec.agent, depth + 1, spec.child, 0, env) && spec.child.raises
  }

  /** The first turn that ends the child's loop has a call that waits. */
  ghost predicate ChildWaits(depth: nat, spec: Spec, env: Env)
    requires spec.Asks?
  {
    exists k: nat :: FirstEnd(spec.agent, depth + 1, spec.child, 0, env, k)
      && !TurnCancelled(spec.child.turns[k]) && !TurnFails(spec.child.turns[k])
      && SomeUseWaits(spec.agent, depth + 1, spec.child.turns[k], env)
  }

  /** The child's loop ends with a failure of its LLM, with a done call that is accepted, or as it runs out of turns. */
  ghost predicate ChildEnds(depth: nat, spec: Spec, env: Env)
    requires spec.Asks?
  {
    || (NoEnd(spec.agent, depth + 1, spec.child, 0, env) && !spec.child.raises)
    || exists k: nat :: FirstEnd(spec.agent, depth + 1, spec.child, 0, env, k)
         && !TurnCancelled(spec.child.turns[k])
         && (TurnFails(spec.child.turns[k]) || !SomeUseWaits(spec.agent, depth + 1, spec.child.turns[k], env))
  }

  lemma {:induction false} SomeEnd(agent: string, depth: nat, script: Script, from: nat, env: Env) returns (k: nat)
    requires from <= |script.turns| && !NoEnd(agent, depth, script, from, env)
    ensures FirstEnd(agent, depth, script, from, env, k)
    decreases |script.turns| - from
  {
    k := from;
    if !Ends(agent, depth, script.turns[from], env) { k := SomeEnd(agent, depth, script, from + 1, env); }
  }

  lemma {:induction false} OneFirstEnd(agent: string, depth: nat, script: Script, env: Env, k: nat)
    requires FirstEnd(agent, depth, script, 0, env, k)
    ensures forall j: nat | FirstEnd(agent, depth, script, 0, env, j) :: j == k
  {
  }

  /** How the child's script ends its loop. */
  lemma {:induction false} ChildLoopIff(depth: nat, spec: Spec, env: Env)
    requires spec.Asks?
    ensures var loop := RunLoop(spec.agent, depth + 1, spec.child, 0, env).0;
      && (loop.Raised? <==> ChildRaises(depth, spec, env))
      && (loop.Paused? <==> ChildWaits(depth, spec, env))
      && (loop.Completed? || loop.Error? <==> ChildEnds(depth, spec, env))
  {
    LoopEndIff(spec.agent, depth + 1, spec.child, 0, env);
    if !NoEnd(spec.agent, depth + 1, spec.child, 0, env) {
      var k := SomeEnd(spec.agent, depth + 1, spec.child, 0, env);
      OneFirstEnd(spec.agent, depth + 1, spec.child, env, k);
    }
  }

  /** What the parent is told of a child, and what the child's row says. A failure means that it was never started or
      that its loop raised; a loop that its LLM has failed is a success. The token decides over all but the first. */
  lemma EntryIff(agent: string, depth: nat, spec: Spec, env: Env)
    requires spec.Asks? && (SeenIn(spec.child) ==> spec.seen)
    ensures var e := SpawnOne(agent, depth, spec, env);
      && (e.run.Some? <==> Started(agent, depth, spec, env))
      && (e.status.Failure? <==> e.run.None? || ChildRaises(depth, spec, env))
      && (e.status.Cancel? <==> e.run.Some? && spec.seen && !ChildRaises(depth, spec, env))
      && (e.status.Success? <==> e.run.Some? && !spec.seen && ChildEnds(depth, spec, env))
      && (e.status.Pause? <==> e.run.Some? && !spec.seen && ChildWaits(depth, spec, env))
    ensures var e := SpawnOne(agent, depth, spec, env);
      e.run.Some? ==>
        && e.run.value.agent == spec.agent && e.run.value.depth == depth + 1
        && (e.run.value.status == COMPLETED <==> e.status.Success?)
        && (e.run.value.status == FAILED <==> e.status.Failure?)
        && (e.run.value.status == PAUSED <==> e.status.Pause?)
        && (e.run.value.status == PAUSED_USER <==> e.status.Cancel?)
  {
    var e := SpawnOne(agent, depth, spec, env);
    ChildLoopIff(depth, spec, env);
    if e.run.Some? && e.run.value.loop.Cancelled? { CancelledHasSeen(spec.agent, depth + 1, spec.child, 0, env); }
  }

  /** A run of the plan, where an LLM that fails is an error, and the token is not asked again. */
  lemma RootEndIff(agent: string, script: Script, env: Env)
    ensures var root := RootStatus(RunLoop(agent, 0, script, 0, env).0);
      && (NoEnd(agent, 0, script, 0, env) ==> root == if script.raises then FAILED else COMPLETED)
      && forall k: nat | FirstEnd(agent, 0, script, 0, env, k) ::
           var t := script.turns[k];
           && (root == PAUSED_USER <==> TurnCancelled(t)) && (root == FAILED <==> TurnFails(t))
           && (root == PAUSED <==> !TurnCancelled(t) && !TurnFails(t) && SomeUseWaits(agent, 0, t, env))
  {
    LoopEndIff(agent, 0, script, 0, env);
  }

  /** SubagentsMCP.execute: one entry per request, and the parent has to wait when a request is malformed or a child is
      paused or cancelled. */
  method Execute(agent: string, depth: nat, specs: seq<Spec>, env: Env) returns (entries: seq<Entry>, pending: bool)
    requires Allowed(agent, env) != []
    ensures Call(pending, entries) == RunUse(agent, depth, Spawns(specs), env)
    ensures |entries| == |specs| && forall j | 0 <= j < |specs| :: entries[j] == SpawnOne(agent, depth, specs[j], env)
    ensures forall j | 0 <= j < |specs| :: specs[j].Malformed? ==> entries[j] == Entry(Cancel, None)
    ensures pending <==> exists j | 0 <= j < |specs| :: entries[j].status.Pause? || entries[j].status.Cancel?
  {
    entries, pending := [], false;
    for j := 0 to |specs|
      invariant |entries| == j && forall i | 0 <= i < j :: entries[i] == SpawnOne(agent, depth, specs[i], env)
      invariant pending <==> exists i | 0 <= i < j :: entries[i].status.Pause? || entries[i].status.Cancel?
      invariant pending <==> exists e | e in entries :: Holds(e)
    {
      var entry := SpawnOne(agent, depth, specs[j], env);
      entries := entries + [entry];
      pending := pending || Holds(entry);
    }
    assert entries == RunUse(agent, depth, Spawns(specs), env).entries;
  }

  // ------------------------------------------------------------- pauses travel up

  ghost predicate IsChild(d: Run, r: Run, i: nat, j: nat) {
    i < |r.calls| && j < |r.calls[i].entries| && r.calls[i].entries[j].run == Some(d)
  }

  ghost predicate Descends(d: Run, r: Run)
    decreases r
  {
    exists i: nat, j: nat | i < |r.calls| && j < |r.calls[i].entries| && r.calls[i].entries[j].run.Some? ::
      IsChild(d, r, i, j) || Descends(d, r.calls[i].entries[j].run.value)
  }

  /** The token was seen set at one of the checks of the loop. */
  ghost predicate SeenIn(script: Script) {
    exists k | 0 <= k < |script.turns| ::
      script.turns[k].seenFirst || script.turns[k].seenNext || script.turns[k].seenLast
  }

  /** A token that is set stays set: what a child has seen its parent sees when the child returns. */
  ghost predicate Timely(script: Script)
    decreases script
  {
    forall k, u, n | 0 <= k < |script.turns| && 0 <= u < |script.turns[k].uses| && script.turns[k].uses[u].Spawns?
                     && 0 <= n < |script.turns[k].uses[u].specs| && script.turns[k].uses[u].specs[n].Asks? ::
      var spec := script.turns[k].uses[u].specs[n];
      Timely(spec.child) && (SeenIn(spec.child) ==> spec.seen)
  }

  /** Where a call comes from, and that a waiting call ends the loop. */
  lemma {:induction false} CallOrigin(agent: string, depth: nat, script: Script, k: nat, env: Env, i: nat)
    returns (turn: nat, use: nat)
    requires k <= |script.turns| && i < |RunLoop(agent, depth, script, k, env).1|
    ensures turn < |script.turns| && use < |script.turns[turn].uses|
    ensures var (loop, calls) := RunLoop(agent, depth, script, k, env);
      calls[i] == RunUse(agent, depth, script.turns[turn].uses[use], env)
      && (calls[i].pending ==> loop.Paused? || loop.Cancelled?)
    decreases |script.turns| - k
  {
    var t := script.turns[k];
    var calls := seq(|t.uses|, j requires 0 <= j < |t.uses| => RunUse(agent, depth, t.uses[j], env));
    if i < |t.uses| {
      assert RunLoop(agent, depth, script, k, env).1[i] == calls[i];
      assert calls[i] in calls;
      turn, use := k, i;
    } else {
      turn, use := CallOrigin(agent, depth, script, k + 1, env, i - |t.uses|);
    }
  }

  lemma {:induction false} CancelledHasSeen(agent: string, depth: nat, script: Script, k: nat, env: Env)
    requires k <= |script.turns| && RunLoop(agent, depth, script, k, env).0.Cancelled?
    ensures SeenIn(script)
    decreases |script.turns| - k
  {
    var t := script.turns[k];
    if !t.seenFirst && !t.seenNext && !t.seenLast { CancelledHasSeen(agent, depth, script, k + 1, env); }
  }

  /** The request behind a child run. */
  lemma ChildOrigin(agent: string, depth: nat, script: Script, seen: bool, env: Env, i: nat, j: nat)
    returns (spec: Spec)
    requires var r := RunAgent(agent, depth, script, seen, env);
      i < |r.calls| && j < |r.calls[i].entries| && r.calls[i].entries[j].run.Some?
    ensures var r := RunAgent(agent, depth, script, seen, env);
      && spec.Asks? && spec.child < script
      && spec.agent in Allowed(agent, env) && depth + 1 <= env.maxDepth
      && r.calls[i].entries[j].run == Some(RunAgent(spec.agent, depth + 1, spec.child, spec.seen, env))
      && r.calls[i].entries[j].status == EntryOf(r.calls[i].entries[j].run.value.status)
      && (Holds(r.calls[i].entries[j]) ==> r.calls[i].pending)
      && (r.calls[i].pending ==> r.loop.Paused? || r.loop.Cancelled?)
    ensures Timely(script) ==> Timely(spec.child) && (SeenIn(spec.child) ==> spec.seen)
  {
    var k, u := CallOrigin(agent, depth, script, 0, env, i);
    spec := script.turns[k].uses[u].specs[j];
    var call := RunUse(agent, depth, script.turns[k].uses[u], env);
    assert call.entries[j] == SpawnOne(agent, depth, spec, env) && call.entries[j] in call.entries;
  }

  /** A stopped run anywhere below stops the run itself, be it spawned or the root, and the call it was spawned
      through waits. */
  lemma {:induction false} PauseReachesRoot(agent: string, depth: nat, script: Script, seen: bool, env: Env, d: Run)
    requires Timely(script)
    ensures var r := RunAgent(agent, depth, script, seen, env);
      Descends(d, r) && Stopped(d.status) ==>
        Stopped(RootStatus(r.loop)) && ((SeenIn(script) ==> seen) ==> Stopped(r.status))
    ensures var r := RunAgent(agent, depth, script, seen, env);
      forall i: nat, j: nat | IsChild(d, r, i, j) && Stopped(d.status) :: r.calls[i].pending
    decreases script
  {
    var r := RunAgent(agent, depth, script, seen, env);
    forall i: nat, j: nat | IsChild(d, r, i, j) && Stopped(d.status) ensures r.calls[i].pending {
      var spec := ChildOrigin(agent, depth, script, seen, env, i, j);
    }
    if Descends(d, r) && Stopped(d.status) {
      var i: nat, j: nat :| i < |r.calls| && j < |r.calls[i].entries| && r.calls[i].entries[j].run.Some?
        && (IsChild(d, r, i, j) || Descends(d, r.calls[i].entries[j].run.value));
      var spec := ChildOrigin(agent, depth, script, seen, env, i, j);
      PauseReachesRoot(spec.agent, depth + 1, spec.child, spec.seen, env, d);
      if r.loop.Cancelled? { CancelledHasSeen(agent, depth, script, 0, env); }
    }
  }

  /** What can make a run stop: a tool that waits, a malformed request, a child that the user stopped. */
  ghost predicate Source(r: Run)
    decreases r
  {
    exists i | 0 <= i < |r.calls| ::
      (r.calls[i].pending && r.calls[i].entries == [])
      || exists j | 0 <= j < |r.calls[i].entries| :: EntrySource(r.calls[i].entries[j])
  }

  ghost predicate EntrySource(e: Entry)
    decreases e
  {
    match e.run case None => e.status.Cancel? case Some(child) => child.status.PAUSED_USER? || Source(child)
  }

  lemma {:induction false} PausedHasPending(agent: string, depth: nat, script: Script, k: nat, env: Env)
    returns (i: nat)
    requires k <= |script.turns| && RunLoop(agent, depth, script, k, env).0.Paused?
    ensures var calls := RunLoop(agent, depth, script, k, env).1; i < |calls| && calls[i].pending
    decreases |script.turns| - k
  {
    var t := script.turns[k];
    var calls := seq(|t.uses|, j requires 0 <= j < |t.uses| => RunUse(agent, depth, t.uses[j], env));
    if c :| c in calls && c.pending {
      i :| i < |calls| && calls[i] == c;
    } else {
      var n := PausedHasPending(agent, depth, script, k + 1, env);
      i := |calls| + n;
    }
  }

  lemma {:induction false} PausedHasSource(agent: string, depth: nat, script: Script, seen: bool, env: Env)
    requires Timely(script) && RunAgent(agent, depth, script, seen, env).loop.Paused?
    ensures Source(RunAgent(agent, depth, script, seen, env))
    decreases script, 0
  {
    var r := RunAgent(agent, depth, script, seen, env);
    var i := PausedHasPending(agent, depth, script, 0, env);
    var k, u := CallOrigin(agent, depth, script, 0, env, i);
    var use := script.turns[k].uses[u];
    if use.Spawns? {
      var e :| e in r.calls[i].entries && Holds(e);
      var j: nat :| j < |r.calls[i].entries| && r.calls[i].entries[j] == e;
      assert e == SpawnOne(agent, depth, use.specs[j], env);
      if e.run.Some? {
        var spec := ChildOrigin(agent, depth, script, seen, env, i, j);
        StopsIff(spec.agent, depth + 1, spec.child, spec.seen, env);
      }
      assert EntrySource(r.calls[i].entries[j]);
    }
  }

  /** A spawned run stops exactly when the user stopped it or there is a source of the pause in its tree. */
  lemma {:induction false} StopsIff(agent: string, depth: nat, script: Script, seen: bool, env: Env)
    requires Timely(script) && (SeenIn(script) ==> seen)
    ensures var r := RunAgent(agent, depth, script, seen, env);
      Stopped(r.status) <==> r.status.PAUSED_USER? || Source(r)
    decreases script, 1
  {
    var r := RunAgent(agent, depth, script, seen, env);
    if r.loop.Cancelled? { CancelledHasSeen(agent, depth, script, 0, env); }
    if r.status.PAUSED? { PausedHasSource(agent, depth, script, seen, env); }
    if Source(r) { SourceStops(agent, depth, script, seen, env); }
  }

  /** The root stops exactly when its loop was cancelled or there is a source of the pause in its tree. */
  lemma {:induction false} RootStopsIff(agent: string, script: Script, env: Env)
    requires Timely(script)
    ensures var r := RunAgent(agent, 0, script, false, env);
      Stopped(RootStatus(r.loop)) <==> r.loop.Cancelled? || Source(r)
  {
    var r := RunAgent(agent, 0, script, false, env);
    if r.loop.Paused? { PausedHasSource(agent, 0, script, false, env); }
    if Source(r) { SourceStops(agent, 0, script, false, env); }
  }

  lemma {:induction false} SourceStops(agent: string, depth: nat, script: Script, seen: bool, env: Env)
    requires Timely(script) && Source(RunAgent(agent, depth, script, seen, env))
    ensures var r := RunAgent(agent, depth, script, seen, env);
      Stopped(RootStatus(r.loop)) && ((SeenIn(script) ==> seen) ==> Stopped(r.status))
    decreases script
  {
    var r := RunAgent(agent, depth, script, seen, env);
    var i: nat :| i < |r.calls| && ((r.calls[i].pending && r.calls[i].entries == [])
      || exists j | 0 <= j < |r.calls[i].entries| :: EntrySource(r.calls[i].entries[j]));
    var k, u := CallOrigin(agent, depth, script, 0, env, i);
    if r.calls[i].entries != [] {
      var j: nat :| j < |r.calls[i].entries| && EntrySource(r.calls[i].entries[j]);
      var e := r.calls[i].entries[j];
      if e.run.Some? {
        var spec := ChildOrigin(agent, depth, script, seen, env, i, j);
        if Source(e.run.value) { SourceStops(spec.agent, depth + 1, spec.child, spec.seen, env); }
      }
      assert Holds(e) && e in r.calls[i].entries;
    }
    assert r.calls[i].pending;
    if r.loop.Cancelled? { CancelledHasSeen(agent, depth, script, 0, env); }
  }

  // ------------------------------------------------------------ depth and edges

  /** Every run below is within the depth limit, and every edge is one the parent's definition allows. */
  lemma {:induction false} TreeIsBounded(agent: string, depth: nat, script: Script, seen: bool, env: Env, d: Run)
    ensures var r := RunAgent(agent, depth, script, seen, env);
      Descends(d, r) ==> depth < d.depth <= env.maxDepth
    ensures var r := RunAgent(agent, depth, script, seen, env);
      forall i: nat, j: nat | IsChild(d, r, i, j) :: d.agent in Allowed(agent, env) && d.depth == depth + 1
    decreases script
  {
    var r := RunAgent(agent, depth, script, seen, env);
    forall i: nat, j: nat | IsChild(d, r, i, j) ensures d.agent in Allowed(agent, env) && d.depth == depth + 1 {
      var spec := ChildOrigin(agent, depth, script, seen, env, i, j);
    }
    if Descends(d, r) {
      var i: nat, j: nat :| i < |r.calls| && j < |r.calls[i].entries| && r.calls[i].entries[j].run.Some?
        && (IsChild(d, r, i, j) || Descends(d, r.calls[i].entries[j].run.value));
      var spec := ChildOrigin(agent, depth, script, seen, env, i, j);
      TreeIsBounded(spec.agent, depth + 1, spec.child, spec.seen, env, d);
    }
  }

  // ----------------------------------------------- depth across pauses and resumes

  /** A step down the tree. A run that was resumed counts its depth from 0 again. */
  datatype Edge = Edge(child: string, afterResume: bool)

  /** The depth the run at the end of the path was given. */
  function CountedDepth(path: seq<Edge>): nat {
    if path == [] then 0
    else 1 + if path[|path| - 1].afterResume then 0 else CountedDepth(path[..|path| - 1])
  }

  function Resumes(path: seq<Edge>): nat {
    if path == [] then 0
    else Resumes(path[..|path| - 1]) + if path[|path| - 1].afterResume then 1 else 0
  }

  function Last(root: string, path: seq<Edge>): string { if path == [] then root else path[|path| - 1].child }

  /** Every run on the path passes the checks of spawn_one. */
  ghost predicate Spawnable(root: string, path: seq<Edge>, env: Env) {
    path == []
    || (Spawnable(root, path[..|path| - 1], env)
        && Last(root, path) in Allowed(Last(root, path[..|path| - 1]), env)
        && CountedDepth(path) <= env.maxDepth)
  }

  lemma {:induction false} DepthAfterResumes(root: string, path: seq<Edge>, env: Env)
    requires Spawnable(root, path, env) && env.maxDepth >= 0
    ensures CountedDepth(path) <= env.maxDepth
    ensures |path| <= env.maxDepth * Resumes(path) + CountedDepth(path)
    decreases |path|
  {
    if path != [] {
      var shorter := path[..|path| - 1];
      DepthAfterResumes(root, shorter, env);
      OneMore(env.maxDepth, Resumes(shorter));
    }
  }

  lemma OneMore(m: int, r: int)
    ensures m * (r + 1) == m * r + m
  {
  }

  /** An agent that spawns itself as deep as it may and is resumed at the bottom, r times, and then d more. */
  function Tower(agent: string, m: nat, r: nat, d: nat): seq<Edge>
    requires 0 < d <= m
    decreases r, d
  {
    if d > 1 then Tower(agent, m, r, d - 1) + [Edge(agent, false)]
    else if r > 0 then Tower(agent, m, r - 1, m) + [Edge(agent, true)]
    else [Edge(agent, false)]
  }

  /** A path of one agent that may be spawned, with r resumes and d edges since the last one. */
  ghost predicate Stands(agent: string, env: Env, path: seq<Edge>, r: nat, d: nat) {
    CountedDepth(path) == d && Resumes(path) == r && Last(agent, path) == agent && Spawnable(agent, path, env)
  }

  lemma {:induction false} TowerStands(agent: string, env: Env, r: nat, d: nat)
    requires 0 < d <= env.maxDepth && agent in Allowed(agent, env)
    ensures Stands(agent, env, Tower(agent, env.maxDepth, r, d), r, d)
    decreases r, d
  {
    var m: nat := env.maxDepth;
    if d == 1 && r == 0 {
      OneStep(agent, env, [], 0, 0, false);
      assert [] + [Edge(agent, false)] == Tower(agent, m, 0, 1);
    } else {
      var r', d' := if d > 1 then r else r - 1, if d > 1 then d - 1 else m;
      TowerStands(agent, env, r', d');
      OneStep(agent, env, Tower(agent, m, r', d'), r', d', d == 1);
    }
  }

  lemma {:induction false} TowerHeight(agent: string, m: nat, r: nat, d: nat)
    requires 0 < d <= m
    ensures |Tower(agent, m, r, d)| == m * r + d
    decreases r, d
  {
    if d > 1 {
      TowerHeight(agent, m, r, d - 1);
    } else if r > 0 {
      TowerHeight(agent, m, r - 1, m);
      OneMore(m, r - 1);
    }
  }

  lemma {:induction false} OneStep(agent: string, env: Env, path: seq<Edge>, r: nat, d: nat, afterResume: bool)
    requires Stands(agent, env, path, r, d) && agent in Allowed(agent, env) && env.maxDepth > 0
    requires afterResume || d < env.maxDepth
    ensures Stands(agent, env, path + [Edge(agent, afterResume)], r + if afterResume then 1 else 0,
                   (if afterResume then 0 else d) + 1)
  {
    var longer := path + [Edge(agent, afterResume)];
    assert longer[..|longer| - 1] == path;
  }

  lemma DeepPath(agent: string, env: Env, resumes: nat) returns (path: seq<Edge>)
    requires env.maxDepth > 0 && agent in Allowed(agent, env) && resumes > 0
    ensures Spawnable(agent, path, env) && Resumes(path) == resumes && |path| > env.maxDepth
  {
    path := Tower(agent, env.maxDepth, resumes, 1);
    TowerStands(agent, env, resumes, 1);
    TowerHeight(agent, env.maxDepth, resumes, 1);
    OneMore(env.maxDepth, resumes - 1);
  }

  lemma ShallowPath(agent: string, env: Env, path: seq<Edge>)
    requires env.maxDepth > 0 && Spawnable(agent, path, env) && Resumes(path) == 0
    ensures |path| <= env.maxDepth
  {
    DepthAfterResumes(agent, path, env);
  }

  /** The depth limit bounds the spawn tree of an agent that may spawn itself exactly when no run in it was
      resumed. */
  lemma DepthHoldsIffNeverResumed(agent: string, env: Env, resumes: nat)
    requires env.maxDepth > 0 && agent in Allowed(agent, env)
    ensures (forall path | Spawnable(agent, path, env) && Resumes(path) == resumes :: |path| <= env.maxDepth)
            <==> resumes == 0
  {
    if resumes == 0 {
      forall path | Spawnable(agent, path, env) && Resumes(path) == resumes ensures |path| <= env.maxDepth {
        ShallowPath(agent, env, path);
      }
    } else {
      var path := DeepPath(agent, env, resumes);
    }
  }
}
