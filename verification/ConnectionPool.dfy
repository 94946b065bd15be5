/** Trees of agents that share a bounded pool of database connections and one event loop. */
module ConnectionPool {
  import opened Wrappers

  /** What an agent is doing. A database operation is one step, since nothing is awaited within it. Resuming: the
      agent is about to read on a session that stays open. Gathering: it waits for the runs it has resumed, rather
      than for subagents. */
  datatype Phase = Resuming | Ready | AwaitsLlm | AwaitsChildren | Gathering | Finished

  /** The runs a background task is going to start and to resume side by side, and whether it resumes the
      parent of these runs afterwards. */
  datatype Group = NoGroup | Group(started: nat, leaves: nat, after: bool)

  /** pinned: its session keeps a connection. calls: its tool calls in progress, each of which keeps one as well. */
  datatype Agent = Agent(parent: Option<nat>, phase: Phase, pinned: bool, calls: nat, group: Group)

  type Forest = seq<Agent>

  /** What a background task begins with: a new run, one resumed run, several paused leaves (committed: the
      task has ended its own transaction before), or a nested retry with its paused siblings. */
  datatype Root = Started | Resumed | ResumesLeaves(leaves: nat, committed: bool) | RetriesNested(siblings: nat)

  function RootAgent(r: Root): Agent {
    match r
    case Started => Agent(None, Ready, false, 0, NoGroup)
    case Resumed => Agent(None, Resuming, false, 0, NoGroup)
    case ResumesLeaves(n, committed) => Agent(None, if committed then Ready else Resuming, false, 0, Group(0, n, false))
    case RetriesNested(n) => Agent(None, Resuming, false, 0, Group(1, n, true))
  }

  /** The sessions of a root that can keep a connection at the same time. */
  function Sessions(r: Root): nat {
    match r
    case Started => 0
    case Resumed => 1
    case ResumesLeaves(n, committed) => n + if committed then 0 else 1
    case RetriesNested(n) => n + 1
  }

  function AllSessions(roots: seq<Root>): nat {
    if roots == [] then 0 else AllSessions(roots[..|roots| - 1]) + Sessions(roots[|roots| - 1])
  }

  /** A single paused leaf is resumed on the session of the task itself. */
  ghost predicate Plausible(roots: seq<Root>) {
    forall k | 0 <= k < |roots| && roots[k].ResumesLeaves? :: roots[k].leaves >= 2
  }

  function Sum(t: Forest, f: Agent -> nat): nat {
    if t == [] then 0 else Sum(t[..|t| - 1], f) + f(t[|t| - 1])
  }

  function Cost(a: Agent): nat { a.calls + if a.pinned then 1 else 0 }

  function InUse(t: Forest): nat { Sum(t, Cost) }

  function CallsIn(t: Forest): nat { Sum(t, (a: Agent) => a.calls) }

  predicate Pending(a: Agent) { a.group.Group? && (a.phase.Resuming? || a.phase.Ready?) }

  /** The connections that an agent keeps, or will keep before its group is done. */
  function Weight(a: Agent): nat {
    (if a.pinned || a.phase.Resuming? then 1 else 0) + (if Pending(a) then a.group.leaves else 0)
  }

  /** The openings that are left. */
  function Todo(a: Agent): nat {
    (if a.phase.Resuming? then 1 else 0) + (if Pending(a) then a.group.leaves + 1 else 0)
  }

  function Demand(t: Forest): nat { Sum(t, Weight) }

  // ------------------------------------------------------------------- actions

  /** What an agent turns to after a database operation. */
  datatype Next = MoreWork | AskLlm | CallTool | Spawn(width: nat) | Finish

  /** Wait: the agent asks for a connection while none is free. */
  datatype Action =
    | Pin(i: nat) | Work(i: nat, next: Next) | LlmReturns(i: nat) | ToolReturns(i: nat) | Gather(i: nat) | Join(i: nat)
    | Wait(i: nat)

  /** The connections of the pool, and how many tool calls are ever in progress at once. */
  datatype Limits = Limits(pool: nat, calls: nat)

  /** The next step of the agent takes a connection. */
  predicate Wants(a: Agent) { a.phase.Resuming? || (a.phase.Ready? && a.group.NoGroup?) }

  predicate MayTurn(lim: Limits, t: Forest, a: Agent, next: Next) {
    && (next.CallTool? ==> CallsIn(t) < lim.calls)
    && (next.AskLlm? || next.Finish? ==> a.calls == 0)
  }

  predicate ChildrenFinished(t: Forest, i: nat) {
    forall j | 0 <= j < |t| && t[j].parent == Some(i) :: t[j].phase.Finished?
  }

  predicate Enabled(lim: Limits, t: Forest, a: Action) {
    && a.i < |t|
    && match a
       case Pin(i) => t[i].phase.Resuming? && InUse(t) < lim.pool
       case Work(i, next) =>
         t[i].phase.Ready? && t[i].group.NoGroup? && InUse(t) < lim.pool && MayTurn(lim, t, t[i], next)
       case LlmReturns(i) => t[i].phase.AwaitsLlm?
       case ToolReturns(i) => t[i].calls > 0
       case Gather(i) => t[i].phase.Ready? && t[i].group.Group?
       case Join(i) => (t[i].phase.AwaitsChildren? || t[i].phase.Gathering?) && ChildrenFinished(t, i)
       case Wait(i) => Wants(t[i]) && InUse(t) >= lim.pool
  }

  /** A run that is started, or resumed on a session of its own. */
  function Child(i: nat, resumed: bool): Agent {
    Agent(Some(i), if resumed then Resuming else Ready, false, 0, NoGroup)
  }

  /** The agents that an action adds. */
  function Added(t: Forest, a: Action): Forest
    requires a.i < |t|
  {
    match a
    case Work(i, Spawn(width)) => seq(width, _ => Child(i, false))
    case Gather(i) =>
      if t[i].group.NoGroup? then []
      else seq(t[i].group.started, _ => Child(i, false)) + seq(t[i].group.leaves, _ => Child(i, true))
    case _ => []
  }

  /** The agent that acts, afterwards. */
  function Acted(t: Forest, a: Action): Agent
    requires a.i < |t|
  {
    var me := t[a.i];
    match a
    case Pin(_) => me.(phase := Ready, pinned := true)
    case Work(_, MoreWork) => me
    case Work(_, AskLlm) => me.(phase := AwaitsLlm)
    case Work(_, CallTool) => me.(calls := me.calls + 1)
    case Work(_, Spawn(_)) => me.(phase := AwaitsChildren)
    case Work(_, Finish) => me.(phase := Finished, pinned := false)
    case LlmReturns(_) => me.(phase := Ready)
    case ToolReturns(_) => if me.calls > 0 then me.(calls := me.calls - 1) else me
    case Wait(_) => me
    case Gather(_) => me.(phase := Gathering)
    case Join(_) =>
      if me.phase.AwaitsChildren? then me.(phase := Ready)
      else if me.group.Group? && me.group.after then me.(phase := Resuming, pinned := false, group := NoGroup)
      else me.(phase := Finished, pinned := false)
  }

  function Apply(t: Forest, a: Action): Forest
    requires a.i < |t|
  {
    t[a.i := Acted(t, a)] + Added(t, a)
  }

  function Initial(roots: seq<Root>): Forest {
    seq(|roots|, k requires 0 <= k < |roots| => RootAgent(roots[k]))
  }

  /** All agents run on one event loop, and asking for a connection does not yield: once an agent waits for one,
      nobody acts any more, and so nobody gives one back. */
  datatype World = Going(agents: Forest) | Stalled(agents: Forest)

  function Step(lim: Limits, w: World, a: Action): Option<World> {
    if w.Stalled? || !Enabled(lim, w.agents, a) then None
    else if a.Wait? then Some(Stalled(w.agents))
    else Some(Going(Apply(w.agents, a)))
  }

  /** Where a run leads, if every action was enabled when it was taken. */
  ghost function Exec(lim: Limits, roots: seq<Root>, actions: seq<Action>): Option<World> {
    if actions == [] then Some(Going(Initial(roots)))
    else
      match Exec(lim, roots, actions[..|actions| - 1])
      case None => None
      case Some(w) => Step(lim, w, actions[|actions| - 1])
  }

  ghost predicate Reachable(lim: Limits, roots: seq<Root>, w: World) {
    exists actions :: Exec(lim, roots, actions) == Some(w)
  }

  ghost predicate AllFinished(t: Forest) {
    forall i | 0 <= i < |t| :: t[i].phase.Finished?
  }

  /** Wherever a run has led, something can happen until everything is finished. */
  ghost predicate DeadlockFree(lim: Limits, roots: seq<Root>) {
    forall w | Reachable(lim, roots, w) :: AllFinished(w.agents) || exists a :: Step(lim, w, a).Some?
  }

  // ---------------------------------------------------------------------- sums

  lemma {:induction false} SumUpdate(t: Forest, f: Agent -> nat, i: nat, a: Agent)
    requires i < |t|
    ensures Sum(t[i := a], f) == Sum(t, f) - f(t[i]) + f(a)
    decreases |t|
  {
    var n := |t| - 1;
    if i == n {
      assert t[i := a][..n] == t[..n];
    } else {
      assert t[i := a][..n] == t[..n][i := a];
      SumUpdate(t[..n], f, i, a);
    }
  }

  lemma {:induction false} SumAppend(t: Forest, u: Forest, f: Agent -> nat)
    ensures Sum(t + u, f) == Sum(t, f) + Sum(u, f)
    decreases |u|
  {
    if u == [] {
      assert t + u == t;
    } else {
      assert (t + u)[..|t + u| - 1] == t + u[..|u| - 1];
      SumAppend(t, u[..|u| - 1], f);
    }
  }

  lemma {:induction false} SumOfSame(n: nat, a: Agent, f: Agent -> nat)
    ensures Sum(seq(n, _ => a), f) == n * f(a)
  {
    if n > 0 {
      assert seq(n, _ => a)[..n - 1] == seq(n - 1, _ => a);
      SumOfSame(n - 1, a, f);
    }
  }

  lemma {:induction false} SumAtMost(t: Forest, f: Agent -> nat, g: Agent -> nat)
    requires forall i | 0 <= i < |t| :: f(t[i]) <= g(t[i])
    ensures Sum(t, f) <= Sum(t, g)
    decreases |t|
  {
    if t != [] { SumAtMost(t[..|t| - 1], f, g); }
  }

  lemma {:induction false} SumSplits(t: Forest, f: Agent -> nat, g: Agent -> nat, h: Agent -> nat)
    requires forall i | 0 <= i < |t| :: f(t[i]) <= g(t[i]) + h(t[i])
    ensures Sum(t, f) <= Sum(t, g) + Sum(t, h)
    decreases |t|
  {
    if t != [] { SumSplits(t[..|t| - 1], f, g, h); }
  }

  /** What an action does to a sum. */
  lemma SumApply(t: Forest, a: Action, f: Agent -> nat)
    requires a.i < |t|
    ensures Sum(Apply(t, a), f) == Sum(t, f) - f(t[a.i]) + f(Acted(t, a)) + Sum(Added(t, a), f)
  {
    SumUpdate(t, f, a.i, Acted(t, a));
    SumAppend(t[a.i := Acted(t, a)], Added(t, a), f);
  }

  /** How many of the agents that an action adds are going to keep a connection. */
  function Joining(t: Forest, a: Action): nat
    requires a.i < |t|
  {
    if a.Gather? && t[a.i].group.Group? then t[a.i].group.leaves else 0
  }

  lemma AddedSum(t: Forest, a: Action, f: Agent -> nat)
    requires a.i < |t| && f(Child(a.i, false)) == 0 && f(Child(a.i, true)) <= 1
    ensures Sum(Added(t, a), f) == Joining(t, a) * f(Child(a.i, true))
  {
    if a.Work? && a.next.Spawn? {
      SumOfSame(a.next.width, Child(a.i, false), f);
    } else if a.Gather? && t[a.i].group.Group? {
      var g := t[a.i].group;
      SumOfSame(g.started, Child(a.i, false), f);
      SumOfSame(g.leaves, Child(a.i, true), f);
      SumAppend(seq(g.started, _ => Child(a.i, false)), seq(g.leaves, _ => Child(a.i, true)), f);
    }
  }

  lemma AddedSums(t: Forest, a: Action)
    requires a.i < |t|
    ensures Sum(Added(t, a), Cost) == CallsIn(Added(t, a)) == 0
    ensures Sum(Added(t, a), Weight) == Sum(Added(t, a), Todo) == Joining(t, a)
  {
    AddedSum(t, a, Cost);
    AddedSum(t, a, (b: Agent) => b.calls);
    AddedSum(t, a, Weight);
    AddedSum(t, a, Todo);
  }

  // ----------------------------------------------------------------- invariant

  predicate Fits(a: Agent) {
    && (a.pinned ==> !a.phase.Resuming? && !a.phase.Finished?)
    && (a.group.Group? && a.group.after && !a.phase.Resuming? ==> a.pinned)
    && (a.phase.Gathering? ==> a.group.Group?)
    && (a.phase.Finished? || a.group.Group? ==> a.calls == 0)
    && (a.group.Group? ==> a.phase.Resuming? || a.phase.Ready? || a.phase.Gathering? || a.phase.Finished?)
  }

  ghost predicate Shape(t: Forest) {
    && (forall i | 0 <= i < |t| :: Fits(t[i]))
    && forall i | 0 <= i < |t| && t[i].parent.Some? :: t[i].parent.value < i
  }

  /** No more connections are in use than there are, and no more are kept than the roots have sessions and tool calls
      may be in progress. */
  ghost predicate Inv(lim: Limits, roots: seq<Root>, t: Forest) {
    && Shape(t) && InUse(t) <= lim.pool && Demand(t) <= AllSessions(roots) && CallsIn(t) <= lim.calls
    && InUse(t) <= AllSessions(roots) + lim.calls
  }

  lemma {:induction false} InitialSums(roots: seq<Root>)
    ensures InUse(Initial(roots)) == CallsIn(Initial(roots)) == 0 && Demand(Initial(roots)) == AllSessions(roots)
    decreases |roots|
  {
    if roots != [] {
      assert Initial(roots)[..|roots| - 1] == Initial(roots[..|roots| - 1]);
      InitialSums(roots[..|roots| - 1]);
    }
  }

  lemma InitialShape(roots: seq<Root>)
    ensures Shape(Initial(roots))
  {
  }

  lemma {:induction false} ActedFits(lim: Limits, t: Forest, a: Action)
    requires Enabled(lim, t, a) && Fits(t[a.i])
    ensures Fits(Acted(t, a)) && Acted(t, a).parent == t[a.i].parent
  {
  }

  lemma {:induction false} AddedFit(t: Forest, a: Action)
    requires a.i < |t|
    ensures forall j | 0 <= j < |Added(t, a)| :: Fits(Added(t, a)[j]) && Added(t, a)[j].parent == Some(a.i)
  {
  }

  lemma {:induction false} ApplyKeepsShape(lim: Limits, t: Forest, a: Action)
    requires Shape(t) && Enabled(lim, t, a)
    ensures Shape(Apply(t, a))
  {
    ActedFits(lim, t, a);
    AddedFit(t, a);
    ShapeGrows(t, a.i, Acted(t, a), Added(t, a));
  }

  lemma {:induction false} ShapeGrows(t: Forest, i: nat, me: Agent, added: Forest)
    requires Shape(t) && i < |t| && Fits(me) && me.parent == t[i].parent
    requires forall j | 0 <= j < |added| :: Fits(added[j]) && added[j].parent == Some(i)
    ensures Shape(t[i := me] + added)
  {
  }

  predicate Opens(a: Action) { a.Pin? || a.Gather? }

  /** What one agent contributes before and after it has acted. */
  lemma {:induction false} ActedCosts(lim: Limits, t: Forest, a: Action)
    requires Shape(t) && Enabled(lim, t, a)
    ensures Cost(Acted(t, a)) <= Cost(t[a.i]) + if a.Pin? || a.Work? then 1 else 0
    ensures Acted(t, a).calls <= t[a.i].calls + if a.Work? && a.next.CallTool? then 1 else 0
    ensures Weight(Acted(t, a)) + Joining(t, a) <= Weight(t[a.i])
    ensures Opens(a) ==> Weight(Acted(t, a)) + Joining(t, a) == Weight(t[a.i])
    ensures Opens(a) ==> Todo(Acted(t, a)) + Joining(t, a) + 1 == Todo(t[a.i])
  {
  }

  /** Connections are kept by sessions and by tool calls. */
  lemma KeptBySessionsAndCalls(t: Forest)
    ensures InUse(t) <= Demand(t) + CallsIn(t)
  {
    SumSplits(t, Cost, Weight, (a: Agent) => a.calls);
  }

  lemma ApplyKeepsInv(lim: Limits, roots: seq<Root>, t: Forest, a: Action)
    requires Inv(lim, roots, t) && Enabled(lim, t, a)
    ensures Inv(lim, roots, Apply(t, a))
  {
    ApplyKeepsShape(lim, t, a);
    ActedCosts(lim, t, a);
    AddedSums(t, a);
    SumApply(t, a, Cost);
    SumApply(t, a, Weight);
    SumApply(t, a, (b: Agent) => b.calls);
    KeptBySessionsAndCalls(Apply(t, a));
  }

  lemma {:induction false} ExecKeepsInv(lim: Limits, roots: seq<Root>, actions: seq<Action>)
    requires Exec(lim, roots, actions).Some?
    ensures Inv(lim, roots, Exec(lim, roots, actions).value.agents)
    decreases |actions|
  {
    if actions == [] {
      InitialSums(roots);
      InitialShape(roots);
    } else {
      var before := actions[..|actions| - 1];
      ExecKeepsInv(lim, roots, before);
      ApplyKeepsInv(lim, roots, Exec(lim, roots, before).value.agents, actions[|actions| - 1]);
    }
  }

  // ------------------------------------------------------------ parents and children

  /** Whoever has started or resumed a run waits for it. */
  ghost predicate ParentsWait(t: Forest) {
    forall j | 0 <= j < |t| && t[j].parent.Some? && !t[j].phase.Finished? ::
      t[j].parent.value < |t| && Waits(t[t[j].parent.value])
  }

  lemma {:induction false} ParentsStillWait(lim: Limits, t: Forest, a: Action)
    requires ParentsWait(t) && Enabled(lim, t, a)
    ensures ParentsWait(Apply(t, a))
  {
    var u := Apply(t, a);
    AddedFit(t, a);
    forall j | 0 <= j < |u| && u[j].parent.Some? && !u[j].phase.Finished?
      ensures u[j].parent.value < |u| && Waits(u[u[j].parent.value])
    {
      if j < |t| {
        assert !t[j].phase.Finished? && t[j].parent == u[j].parent;
      } else {
        assert u[j] == Added(t, a)[j - |t|] && u[j].parent == Some(a.i);
      }
    }
  }

  /** At any time every agent that has unfinished children waits for them. */
  lemma {:induction false} ParentsAlwaysWait(lim: Limits, roots: seq<Root>, actions: seq<Action>)
    requires Exec(lim, roots, actions).Some?
    ensures ParentsWait(Exec(lim, roots, actions).value.agents)
    decreases |actions|
  {
    if actions != [] {
      var before := actions[..|actions| - 1];
      ParentsAlwaysWait(lim, roots, before);
      ParentsStillWait(lim, Exec(lim, roots, before).value.agents, actions[|actions| - 1]);
    }
  }

  // ------------------------------------------------------------------ progress

  predicate Waits(a: Agent) { a.phase.AwaitsChildren? || a.phase.Gathering? }

  /** The last agent that waits for others. */
  lemma {:induction false} LastWaiting(t: Forest, n: nat) returns (i: nat)
    requires n <= |t| && exists k :: 0 <= k < n && Waits(t[k])
    ensures i < n && Waits(t[i])
    ensures forall k | i < k < n :: !Waits(t[k])
    decreases n
  {
    if Waits(t[n - 1]) { i := n - 1; } else { i := LastWaiting(t, n - 1); }
  }

  /** While a connection is free, some agent can act without waiting for one. */
  lemma Progress(lim: Limits, roots: seq<Root>, t: Forest) returns (a: Action)
    requires Inv(lim, roots, t) && InUse(t) < lim.pool && !AllFinished(t)
    ensures Enabled(lim, t, a) && !a.Wait?
  {
    if i :| 0 <= i < |t| && t[i].phase.AwaitsLlm? {
      a := LlmReturns(i);
    } else if i :| 0 <= i < |t| && t[i].phase.Ready? {
      a := if t[i].group.Group? then Gather(i) else Work(i, MoreWork);
    } else if i :| 0 <= i < |t| && t[i].phase.Resuming? {
      a := Pin(i);
    } else {
      var i :| 0 <= i < |t| && !t[i].phase.Finished?;
      assert Waits(t[i]);
      var last := LastWaiting(t, |t|);
      a := Join(last);
    }
  }

  /** With more connections than open sessions and tool calls at once, nobody ever has to wait for one. */
  lemma {:induction false} NeverStalls(lim: Limits, roots: seq<Root>, actions: seq<Action>)
    requires Exec(lim, roots, actions).Some? && AllSessions(roots) + lim.calls < lim.pool
    ensures Exec(lim, roots, actions).value.Going?
    decreases |actions|
  {
    if actions != [] {
      var before := actions[..|actions| - 1];
      NeverStalls(lim, roots, before);
      ExecKeepsInv(lim, roots, before);
      HasRoom(lim, roots, Exec(lim, roots, before).value.agents);
    }
  }

  lemma {:induction false} HasRoom(lim: Limits, roots: seq<Root>, t: Forest)
    requires Inv(lim, roots, t) && AllSessions(roots) + lim.calls < lim.pool
    ensures InUse(t) < lim.pool
  {
  }

  // ---------------------------------------------------------------- starvation

  /** Nobody has done anything but open sessions and gather. */
  ghost predicate Opening(t: Forest) {
    && (forall i | 0 <= i < |t| :: t[i].phase.Resuming? || t[i].phase.Ready? || t[i].phase.Gathering?)
    && (forall i | 0 <= i < |t| :: t[i].calls == 0)
    && (forall i | 0 <= i < |t| && t[i].group.Group? :: t[i].group.started + t[i].group.leaves > 0)
    && forall i | 0 <= i < |t| && t[i].phase.Gathering? :: HasChild(t, i)
  }

  ghost predicate HasChild(t: Forest, i: nat) {
    exists j | 0 <= j < |t| :: t[j].parent == Some(i)
  }

  lemma OpeningStep(lim: Limits, t: Forest, a: Action)
    requires Shape(t) && Opening(t) && Enabled(lim, t, a) && Opens(a)
    ensures Opening(Apply(t, a))
    ensures Demand(Apply(t, a)) == Demand(t)
    ensures Sum(Apply(t, a), Todo) == Sum(t, Todo) - 1
  {
    ActedCosts(lim, t, a);
    AddedSums(t, a);
    SumApply(t, a, Weight);
    SumApply(t, a, Todo);
    StaysOpening(lim, t, a);
  }

  lemma StaysOpening(lim: Limits, t: Forest, a: Action)
    requires Opening(t) && Enabled(lim, t, a) && Opens(a)
    ensures Opening(Apply(t, a))
  {
    var u := Apply(t, a);
    forall i | 0 <= i < |u| && u[i].phase.Gathering? ensures HasChild(u, i) {
      if i == a.i {
        assert u[|t|] == Added(t, a)[0] && u[|t|].parent == Some(i);
      } else {
        var j :| 0 <= j < |t| && t[j].parent == Some(i);
        assert u[j].parent == Some(i);
      }
    }
  }

  lemma {:induction false} OneMore(lim: Limits, roots: seq<Root>, actions: seq<Action>, t: Forest, a: Action)
    requires Exec(lim, roots, actions) == Some(Going(t)) && Enabled(lim, t, a)
    ensures Exec(lim, roots, actions + [a]) == Some(if a.Wait? then Stalled(t) else Going(Apply(t, a)))
  {
    assert (actions + [a])[..|actions|] == actions;
  }

  /** Some agent that can open a session or gather, if there is any. */
  lemma {:induction false} NextOpening(lim: Limits, t: Forest) returns (a: Option<Action>)
    ensures a.Some? ==> Opens(a.value) && Enabled(lim, t, a.value)
    ensures a.None? ==> forall i | 0 <= i < |t| :: !(t[i].phase.Ready? && t[i].group.Group?)
    ensures a.None? ==> InUse(t) >= lim.pool || forall i | 0 <= i < |t| :: !t[i].phase.Resuming?
  {
    a := None;
    if i :| 0 <= i < |t| && t[i].phase.Ready? && t[i].group.Group? {
      a := Some(Gather(i));
    } else if i :| 0 <= i < |t| && t[i].phase.Resuming? && InUse(t) < lim.pool {
      a := Some(Pin(i));
    }
  }

  /** Once all is opened, the sessions are just the connections in use. */
  lemma {:induction false} AllOpened(t: Forest)
    requires Opening(t) && forall i | 0 <= i < |t| :: !t[i].phase.Resuming? && !(t[i].phase.Ready? && t[i].group.Group?)
    ensures InUse(t) == Demand(t)
  {
    SumAtMost(t, Weight, Cost);
    SumAtMost(t, Cost, Weight);
  }

  /** Opening whatever can be opened ends with every session, or with every connection kept. */
  lemma {:induction false} OpenAll(lim: Limits, roots: seq<Root>, t: Forest, actions: seq<Action>)
    returns (u: Forest, longer: seq<Action>)
    requires Exec(lim, roots, actions) == Some(Going(t))
    requires Opening(t) && Demand(t) == AllSessions(roots)
    ensures Exec(lim, roots, longer) == Some(Going(u)) && Opening(u) && |u| >= |t|
    ensures InUse(u) == lim.pool || (InUse(u) == AllSessions(roots) && forall i | 0 <= i < |u| :: !u[i].phase.Resuming?)
    ensures forall i | 0 <= i < |u| && u[i].phase.Ready? :: u[i].group.NoGroup?
    decreases Sum(t, Todo)
  {
    ExecKeepsInv(lim, roots, actions);
    var a := NextOpening(lim, t);
    if a.Some? {
      OpeningStep(lim, t, a.value);
      OneMore(lim, roots, actions, t, a.value);
      u, longer := OpenAll(lim, roots, Apply(t, a.value), actions + [a.value]);
    } else {
      u, longer := t, actions;
      if InUse(t) < lim.pool { AllOpened(t); }
    }
  }

  lemma CallStep(lim: Limits, t: Forest, i: nat)
    requires Shape(t) && i < |t| && t[i].phase.Ready? && t[i].group.NoGroup?
    ensures var u := Apply(t, Work(i, CallTool));
      && InUse(u) == InUse(t) + 1 && CallsIn(u) == CallsIn(t) + 1
      && |u| == |t| && u[i].phase.Ready? && u[i].group.NoGroup?
  {
    var a := Work(i, CallTool);
    SumApply(t, a, Cost);
    SumApply(t, a, (b: Agent) => b.calls);
  }

  /** An agent that calls tools can keep every connection that is left. */
  lemma {:induction false} CallAll(lim: Limits, roots: seq<Root>, t: Forest, actions: seq<Action>, i: nat)
    returns (u: Forest, longer: seq<Action>)
    requires Exec(lim, roots, actions) == Some(Going(t)) && InUse(t) <= lim.pool
    requires i < |t| && t[i].phase.Ready? && t[i].group.NoGroup? && CallsIn(t) + (lim.pool - InUse(t)) <= lim.calls
    ensures Exec(lim, roots, longer) == Some(Going(u)) && InUse(u) == lim.pool
    ensures i < |u| && Wants(u[i])
    decreases lim.pool - InUse(t)
  {
    if InUse(t) == lim.pool { return t, actions; }
    var a := Work(i, CallTool);
    ExecKeepsInv(lim, roots, actions);
    CallStep(lim, t, i);
    OneMore(lim, roots, actions, t, a);
    u, longer := CallAll(lim, roots, Apply(t, a), actions + [a], i);
  }

  lemma InitialOpening(roots: seq<Root>)
    requires Plausible(roots)
    ensures Opening(Initial(roots))
  {
  }

  /** Without calls in progress no connection is kept by one. */
  lemma {:induction false} NoCalls(t: Forest)
    requires forall i | 0 <= i < |t| :: t[i].calls == 0
    ensures CallsIn(t) == 0
    decreases |t|
  {
    if t != [] { NoCalls(t[..|t| - 1]); }
  }

  /** In a forest that has only been opened, the last agent is about to take a connection. */
  lemma {:induction false} LastWants(t: Forest)
    requires t != [] && Shape(t) && Opening(t) && forall i | 0 <= i < |t| && t[i].phase.Ready? :: t[i].group.NoGroup?
    ensures Wants(t[|t| - 1])
  {
    var last := |t| - 1;
    assert t[last].phase.Gathering? ==> HasChild(t, last);
  }

  /** With as many sessions and tool calls as connections, all connections can be kept while an agent needs one. */
  lemma {:induction false} AllKept(lim: Limits, roots: seq<Root>) returns (t: Forest, actions: seq<Action>, i: nat)
    requires roots != [] && lim.pool <= AllSessions(roots) + lim.calls && Plausible(roots)
    ensures Exec(lim, roots, actions) == Some(Going(t)) && InUse(t) == lim.pool && i < |t| && Wants(t[i])
  {
    InitialOpening(roots);
    InitialSums(roots);
    t, actions := OpenAll(lim, roots, Initial(roots), []);
    ExecKeepsInv(lim, roots, actions);
    LastWants(t);
    i := |t| - 1;
    if InUse(t) < lim.pool {
      NoCalls(t);
      t, actions := CallAll(lim, roots, t, actions, i);
    }
  }

  /** That agent then waits for ever, and everybody with it. */
  lemma SessionsStarve(lim: Limits, roots: seq<Root>)
    requires roots != [] && lim.pool <= AllSessions(roots) + lim.calls && Plausible(roots)
    ensures exists w :: Reachable(lim, roots, w) && w.Stalled? && !AllFinished(w.agents)
  {
    var t, actions, i := AllKept(lim, roots);
    OneMore(lim, roots, actions, t, Wait(i));
    assert Reachable(lim, roots, Stalled(t));
    assert !t[i].phase.Finished?;
  }

  /** With at most so many tool calls at once a pool is free of deadlock, at every width and depth, exactly when it is
      larger than the number of these calls and of the sessions that the background tasks keep open. */
  lemma DeadlockFreeIff(lim: Limits, roots: seq<Root>)
    requires Plausible(roots)
    ensures DeadlockFree(lim, roots) <==> roots == [] || AllSessions(roots) + lim.calls < lim.pool
  {
    if roots == [] {
      forall w | Reachable(lim, roots, w) ensures AllFinished(w.agents) {
        var actions :| Exec(lim, roots, actions) == Some(w);
        NobodyActs(lim, actions);
      }
    } else if AllSessions(roots) + lim.calls < lim.pool {
      forall w | Reachable(lim, roots, w) ensures AllFinished(w.agents) || exists a :: Step(lim, w, a).Some? {
        var actions :| Exec(lim, roots, actions) == Some(w);
        ExecKeepsInv(lim, roots, actions);
        NeverStalls(lim, roots, actions);
        if !AllFinished(w.agents) {
          var a := Progress(lim, roots, w.agents);
          assert Step(lim, w, a).Some?;
        }
      }
    } else {
      SessionsStarve(lim, roots);
    }
  }

  lemma {:induction false} NobodyActs(lim: Limits, actions: seq<Action>)
    requires Exec(lim, [], actions).Some?
    ensures Exec(lim, [], actions).value.agents == []
    decreases |actions|
  {
    if actions != [] { NobodyActs(lim, actions[..|actions| - 1]); }
  }

  /** Nothing in the code bounds the tool calls, and then no pool is large enough. */
  lemma NoPoolIsEnough(pool: nat, roots: seq<Root>)
    requires roots != [] && Plausible(roots)
    ensures !DeadlockFree(Limits(pool, pool), roots)
  {
    DeadlockFreeIff(Limits(pool, pool), roots);
  }
}
