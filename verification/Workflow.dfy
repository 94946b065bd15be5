/** The plan of a session as a queue of jobs, and when the scheduling loop must come to an end. */
module Workflow {

  datatype Step = Step(agent: string, prompt: string)

  datatype Job = Job(agent: string, prompt: string)

  /** The parts of an agent definition that the scheduler looks at. */
  datatype Definition = Definition(allowedNext: seq<string>, canPlan: bool, subagents: seq<string>)

  type Config = map<string, Definition>

  const MAX_PLANNER_ITERATIONS: nat := 30

  const MAX_SUBAGENT_DEPTH: nat := 10

  const FORCED_SUMMARY := Step("summarizer", "Summarize what was accomplished for the user.")

  // ------------------------------------------------------------- operations

  predicate HasAgent(steps: seq<Step>, agent: string) {
    exists i | 0 <= i < |steps| :: steps[i].agent == agent
  }

  function Without(steps: seq<Step>, agent: string): (rest: seq<Step>)
    ensures !HasAgent(rest, agent)
  {
    if steps == [] then []
    else if steps[0].agent == agent then Without(steps[1..], agent)
    else
      var rest := Without(steps[1..], agent);
      assert forall i | 0 < i < |[steps[0]] + rest| :: ([steps[0]] + rest)[i] == rest[i - 1];
      [steps[0]] + rest
  }

  /** Once the planner has completed too often, its own steps are struck and a summary closes the plan. */
  function Capped(steps: seq<Step>, planners: nat): seq<Step> {
    if HasAgent(steps, "planner") && planners >= MAX_PLANNER_ITERATIONS then
      var rest := Without(steps, "planner");
      if HasAgent(rest, "summarizer") then rest else rest + [FORCED_SUMMARY]
    else steps
  }

  predicate Usable(step: Step) { step.agent != "" && step.prompt != "" }

  function JobsOf(steps: seq<Step>): seq<Job> {
    if steps == [] then []
    else if Usable(steps[0]) then [Job(steps[0].agent, steps[0].prompt)] + JobsOf(steps[1..])
    else JobsOf(steps[1..])
  }

  /** make_plan: an empty plan is refused, any other replaces the queue. */
  function Plan(queue: seq<Job>, steps: seq<Step>, planners: nat): seq<Job> {
    if steps == [] then queue else JobsOf(Capped(steps, planners))
  }

  predicate Routes(cfg: Config, a: string, b: string) {
    a in cfg && b != "" && b in cfg[a].allowedNext && b in cfg
  }

  /** done(next_agent): an allowed agent goes before everything that is pending. */
  function Route(cfg: Config, queue: seq<Job>, caller: string, next: string): seq<Job> {
    if Routes(cfg, caller, next) then [Job(next, "")] + queue else queue
  }

  // ------------------------------------------------------------ what a plan keeps

  /** A step that becomes a job: it names an agent and a prompt, and is not a planner step that is struck. */
  predicate Stays(step: Step, strike: bool) {
    step.agent != "" && step.prompt != "" && !(strike && step.agent == "planner")
  }

  /** Job k is that of step idx[k], which stays. */
  ghost predicate Match(steps: seq<Step>, strike: bool, idx: seq<nat>, jobs: seq<Job>) {
    && |jobs| == |idx|
    && forall k | 0 <= k < |idx| ::
         idx[k] < |steps| && Stays(steps[idx[k]], strike) && jobs[k] == Job(steps[idx[k]].agent, steps[idx[k]].prompt)
  }

  ghost predicate Rising(idx: seq<nat>) { forall j, k | 0 <= j < k < |idx| :: idx[j] < idx[k] }

  /** The jobs are those of all steps that stay, in their order. */
  ghost predicate KeepsSteps(steps: seq<Step>, strike: bool, idx: seq<nat>, jobs: seq<Job>) {
    && Match(steps, strike, idx, jobs) && Rising(idx)
    && forall i: nat | i < |steps| && Stays(steps[i], strike) :: i in idx
  }

  lemma {:induction false} FirstJob(steps: seq<Step>, strike: bool)
    requires steps != []
    ensures JobsOf(if strike then Without(steps, "planner") else steps) ==
      (if Stays(steps[0], strike) then [Job(steps[0].agent, steps[0].prompt)] else [])
      + JobsOf(if strike then Without(steps[1..], "planner") else steps[1..])
  {
    var kept := if strike then Without(steps[1..], "planner") else steps[1..];
    assert ([steps[0]] + kept)[1..] == kept;
    assert [steps[0]] + steps[1..] == steps;
    assert [] + JobsOf(kept) == JobsOf(kept);
  }

  lemma {:induction false} StepJobs(steps: seq<Step>, strike: bool) returns (idx: seq<nat>)
    ensures KeepsSteps(steps, strike, idx, JobsOf(if strike then Without(steps, "planner") else steps))
    decreases |steps|
  {
    idx := [];
    if steps != [] {
      FirstJob(steps, strike);
      var rest := StepJobs(steps[1..], strike);
      idx := Shifted(steps, strike, rest, JobsOf(if strike then Without(steps[1..], "planner") else steps[1..]));
    }
  }

  function Moved(rest: seq<nat>): (moved: seq<nat>)
    ensures |moved| == |rest| && forall k | 0 <= k < |rest| :: moved[k] == rest[k] + 1
  {
    seq(|rest|, k requires 0 <= k < |rest| => rest[k] + 1)
  }

  lemma {:induction false} MovedMatches(steps: seq<Step>, strike: bool, rest: seq<nat>, jobs: seq<Job>)
    requires steps != [] && Match(steps[1..], strike, rest, jobs)
    ensures Match(steps, strike, Moved(rest), jobs)
  {
    forall k | 0 <= k < |rest| ensures rest[k] + 1 < |steps| && steps[rest[k] + 1] == steps[1..][rest[k]] {}
  }

  lemma {:induction false} MovedAll(steps: seq<Step>, strike: bool, rest: seq<nat>)
    requires steps != [] && forall i: nat | i < |steps[1..]| && Stays(steps[1..][i], strike) :: i in rest
    ensures forall i: nat | 0 < i < |steps| && Stays(steps[i], strike) :: i in Moved(rest)
  {
    forall i: nat | 0 < i < |steps| && Stays(steps[i], strike) ensures i in Moved(rest) {
      assert steps[1..][i - 1] == steps[i];
      var k :| 0 <= k < |rest| && rest[k] == i - 1;
      assert Moved(rest)[k] == i;
    }
  }

  /** One more step at the front moves the others up. */
  lemma {:induction false} Shifted(steps: seq<Step>, strike: bool, rest: seq<nat>, jobs: seq<Job>)
    returns (idx: seq<nat>)
    requires steps != [] && KeepsSteps(steps[1..], strike, rest, jobs)
    ensures KeepsSteps(steps, strike, idx,
                       (if Stays(steps[0], strike) then [Job(steps[0].agent, steps[0].prompt)] else []) + jobs)
  {
    MovedMatches(steps, strike, rest, jobs);
    MovedAll(steps, strike, rest);
    idx := Moved(rest);
    if Stays(steps[0], strike) {
      AddFirst(steps, strike, idx, jobs);
      idx := [0] + idx;
    } else {
      SkipFirst(steps, strike, idx, jobs);
    }
  }

  lemma {:induction false} SkipFirst(steps: seq<Step>, strike: bool, moved: seq<nat>, jobs: seq<Job>)
    requires steps != [] && !Stays(steps[0], strike) && Match(steps, strike, moved, jobs) && Rising(moved)
    requires forall i: nat | 0 < i < |steps| && Stays(steps[i], strike) :: i in moved
    ensures KeepsSteps(steps, strike, moved, [] + jobs)
  {
    assert [] + jobs == jobs;
  }

  lemma {:induction false} AddFirst(steps: seq<Step>, strike: bool, moved: seq<nat>, jobs: seq<Job>)
    requires steps != [] && Stays(steps[0], strike) && Match(steps, strike, moved, jobs) && Rising(moved)
    requires forall k | 0 <= k < |moved| :: moved[k] > 0
    requires forall i: nat | 0 < i < |steps| && Stays(steps[i], strike) :: i in moved
    ensures KeepsSteps(steps, strike, [0] + moved, [Job(steps[0].agent, steps[0].prompt)] + jobs)
  {
    var idx, all := [0] + moved, [Job(steps[0].agent, steps[0].prompt)] + jobs;
    assert forall k | 0 < k < |idx| :: idx[k] == moved[k - 1] && all[k] == jobs[k - 1];
    forall i: nat | i < |steps| && Stays(steps[i], strike) ensures i in idx { if i == 0 { assert idx[0] == 0; } }
  }

  /** The planner has completed as often as it may, and the plan would bring it back. */
  predicate Strikes(steps: seq<Step>, planners: nat) {
    planners >= MAX_PLANNER_ITERATIONS && exists i | 0 <= i < |steps| :: steps[i].agent == "planner"
  }

  /** A plan becomes the jobs of its usable steps, all of them and in order. Only when the cap strikes, planner steps
      are left out, and one job follows: the forced summary, just when no step names the summarizer. */
  lemma PlanTells(queue: seq<Job>, steps: seq<Step>, planners: nat) returns (idx: seq<nat>)
    requires steps != []
    ensures var jobs, strike := Plan(queue, steps, planners), Strikes(steps, planners);
      var forced := strike && forall i | 0 <= i < |steps| :: steps[i].agent != "summarizer";
      && |jobs| == |idx| + (if forced then 1 else 0)
      && KeepsSteps(steps, strike, idx, jobs[..|idx|])
      && (forced ==> jobs[|idx|] == Job(FORCED_SUMMARY.agent, FORCED_SUMMARY.prompt))
  {
    var strike := Strikes(steps, planners);
    idx := StepJobs(steps, strike);
    var kept := if strike then Without(steps, "planner") else steps;
    if strike {
      WithoutKeeps(steps, "planner", "summarizer");
      if !HasAgent(kept, "summarizer") { JobsOfAppend(kept, FORCED_SUMMARY); }
    }
    var jobs := Plan(queue, steps, planners);
    assert jobs[..|idx|] == JobsOf(kept);
  }

  lemma {:induction false} WithoutKeeps(steps: seq<Step>, agent: string, other: string)
    requires other != agent
    ensures HasAgent(Without(steps, agent), other) <==> HasAgent(steps, other)
    decreases |steps|
  {
    if steps != [] {
      WithoutKeeps(steps[1..], agent, other);
      HasAgentHere(steps, other);
      HasAgentHere([steps[0]] + Without(steps[1..], agent), other);
      assert ([steps[0]] + Without(steps[1..], agent))[1..] == Without(steps[1..], agent);
    }
  }

  lemma {:induction false} HasAgentHere(steps: seq<Step>, agent: string)
    requires steps != []
    ensures HasAgent(steps, agent) <==> steps[0].agent == agent || HasAgent(steps[1..], agent)
  {
    if HasAgent(steps[1..], agent) {
      var i :| 0 <= i < |steps| - 1 && steps[1..][i].agent == agent;
      assert steps[i + 1].agent == agent;
    }
    if HasAgent(steps, agent) && steps[0].agent != agent {
      var i :| 0 <= i < |steps| && steps[i].agent == agent;
      assert steps[1..][i - 1].agent == agent;
    }
  }

  lemma {:induction false} JobsOfAppend(steps: seq<Step>, step: Step)
    ensures JobsOf(steps + [step]) == JobsOf(steps) + if Usable(step) then [Job(step.agent, step.prompt)] else []
    ensures !Usable(step) ==> JobsOf(steps + [step]) == JobsOf(steps)
    decreases |steps|
  {
    if steps != [] {
      assert (steps + [step])[1..] == steps[1..] + [step];
      JobsOfAppend(steps[1..], step);
    } else {
      assert steps + [step] == [step] && [step][1..] == [];
    }
  }

  // -------------------------------------------------------------------- runs

  /** Each agent on the path is on the list of the one before it. */
  predicate Chain(cfg: Config, a: string, path: seq<string>)
    decreases |path|
  {
    path == [] || (a in cfg && path[0] in cfg[a].subagents && path[0] in cfg && Chain(cfg, path[0], path[1..]))
  }

  function Last(a: string, path: seq<string>): string { if path == [] then a else path[|path| - 1] }

  /** What happens while a run is going: it makes a plan, or a run below it does, or a run below it completes.
      The path leads from the run to the spawned one; the acts of runs side by side come in any order. */
  datatype Act = Plans(path: seq<string>, steps: seq<Step>) | Completes(path: seq<string>)

  /** Agents spawn those on their list, down to the depth limit, and call the tools they hold. */
  predicate Possible(cfg: Config, a: string, act: Act) {
    && |act.path| <= MAX_SUBAGENT_DEPTH && Chain(cfg, a, act.path)
    && match act
       case Plans(path, _) => Last(a, path) in cfg && cfg[Last(a, path)].canPlan
       case Completes(path) => path != []
  }

  /** What one run does to the queue: its acts, then the agent named by its done call. */
  datatype Behaviour = Behaviour(acts: seq<Act>, next: string)

  datatype State = State(queue: seq<Job>, planners: nat)

  function AsPlanner(agent: string): nat { if agent == "planner" then 1 else 0 }

  function Do(a: string, st: State, act: Act): State {
    match act
    case Plans(_, steps) => st.(queue := Plan(st.queue, steps, st.planners))
    case Completes(path) => st.(planners := st.planners + AsPlanner(Last(a, path)))
  }

  /** Impossible acts have no effect. */
  function DoAll(cfg: Config, a: string, st: State, acts: seq<Act>): State
    decreases acts
  {
    if acts == [] then st
    else DoAll(cfg, a, if Possible(cfg, a, acts[0]) then Do(a, st, acts[0]) else st, acts[1..])
  }

  /** The next job can be run: its agent exists. */
  predicate CanGoOn(cfg: Config, st: State) {
    st.queue != [] && st.queue[0].agent in cfg
  }

  /** The first job is taken and run. */
  function Performed(cfg: Config, st: State, b: Behaviour): State
    requires CanGoOn(cfg, st)
  {
    var agent := st.queue[0].agent;
    var done := DoAll(cfg, agent, State(st.queue[1..], st.planners), b.acts);
    done.(queue := Route(cfg, done.queue, agent, b.next))
  }

  /** The first job is taken, run and completed. */
  function Complete(cfg: Config, st: State, b: Behaviour): State
    requires CanGoOn(cfg, st)
  {
    var after := Performed(cfg, st, b);
    after.(planners := after.planners + AsPlanner(st.queue[0].agent))
  }

  // ------------------------------------------------------- what a run leaves behind

  /** A plan that can be made and is not refused. */
  predicate Replans(cfg: Config, a: string, act: Act) { act.Plans? && act.steps != [] && Possible(cfg, a, act) }

  predicate EndsPlanner(cfg: Config, a: string, act: Act) {
    act.Completes? && Possible(cfg, a, act) && Last(a, act.path) == "planner"
  }

  /** How many spawned planners complete. */
  function PlannersDone(cfg: Config, a: string, acts: seq<Act>): nat {
    if acts == [] then 0
    else PlannersDone(cfg, a, acts[..|acts| - 1]) + if EndsPlanner(cfg, a, acts[|acts| - 1]) then 1 else 0
  }

  lemma {:induction false} DoLast(cfg: Config, a: string, st: State, acts: seq<Act>, act: Act)
    ensures DoAll(cfg, a, st, acts + [act]) ==
      (var before := DoAll(cfg, a, st, acts); if Possible(cfg, a, act) then Do(a, before, act) else before)
    decreases |acts|
  {
    if acts == [] {
      assert acts + [act] == [act] && [act][1..] == [];
    } else {
      assert (acts + [act])[1..] == acts[1..] + [act];
      DoLast(cfg, a, if Possible(cfg, a, acts[0]) then Do(a, st, acts[0]) else st, acts[1..], act);
    }
  }

  lemma {:induction false} CountsPlanners(cfg: Config, a: string, st: State, acts: seq<Act>)
    ensures DoAll(cfg, a, st, acts).planners == st.planners + PlannersDone(cfg, a, acts)
    decreases |acts|
  {
    if acts != [] {
      var rest, last := acts[..|acts| - 1], acts[|acts| - 1];
      assert acts == rest + [last];
      DoLast(cfg, a, st, rest, last);
      CountsPlanners(cfg, a, st, rest);
    }
  }

  /** After a plan that is made nothing changes the queue but a further plan. */
  lemma {:induction false} LastPlanWins(cfg: Config, a: string, st: State, acts: seq<Act>, k: nat)
    requires k < |acts| && Replans(cfg, a, acts[k]) && forall j | k < j < |acts| :: !Replans(cfg, a, acts[j])
    ensures DoAll(cfg, a, st, acts).queue == Plan([], acts[k].steps, st.planners + PlannersDone(cfg, a, acts[..k]))
    decreases |acts|
  {
    var rest, last := acts[..|acts| - 1], acts[|acts| - 1];
    assert acts == rest + [last];
    DoLast(cfg, a, st, rest, last);
    if k < |rest| {
      assert rest[k] == acts[k] && rest[..k] == acts[..k];
      LastPlanWins(cfg, a, st, rest, k);
    } else {
      CountsPlanners(cfg, a, st, rest);
    }
  }

  /** Without a plan that is made the queue stays. */
  lemma {:induction false} NoPlanKeepsQueue(cfg: Config, a: string, st: State, acts: seq<Act>)
    requires forall k | 0 <= k < |acts| :: !Replans(cfg, a, acts[k])
    ensures DoAll(cfg, a, st, acts).queue == st.queue
    decreases |acts|
  {
    if acts != [] {
      NoPlanKeepsQueue(cfg, a, if Possible(cfg, a, acts[0]) then Do(a, st, acts[0]) else st, acts[1..]);
    }
  }

  /** Behind a run that may route, and names an agent it may route to, this agent is next and the rest follows; behind
      any other the queue is what the plans have made of it. The planner counts its own runs and spawned ones. */
  lemma CompleteTells(cfg: Config, st: State, b: Behaviour)
    requires CanGoOn(cfg, st)
    ensures var agent, after := st.queue[0].agent, Complete(cfg, st, b);
      var planned := DoAll(cfg, agent, State(st.queue[1..], st.planners), b.acts).queue;
      && after.planners == st.planners + PlannersDone(cfg, agent, b.acts) + (if agent == "planner" then 1 else 0)
      && (if b.next != "" && b.next in cfg[agent].allowedNext && b.next in cfg
          then after.queue != [] && after.queue[0] == Job(b.next, "") && after.queue[1..] == planned
          else after.queue == planned)
  {
    CountsPlanners(cfg, st.queue[0].agent, State(st.queue[1..], st.planners), b.acts);
  }

  /** What each agent does when it is the n-th to run. */
  type Policy = (nat, string) -> Behaviour

  ghost function StateAt(cfg: Config, st: State, policy: Policy, n: nat): State {
    if n == 0 then st
    else
      var prev := StateAt(cfg, st, policy, n - 1);
      if CanGoOn(cfg, prev) then Complete(cfg, prev, policy(n - 1, prev.queue[0].agent)) else prev
  }

  ghost predicate Endless(cfg: Config, st: State, policy: Policy) {
    forall n: nat :: CanGoOn(cfg, StateAt(cfg, st, policy, n))
  }

  // ------------------------------------------------------------ the condition

  /** A set of agents each of which can route to another of them. */
  ghost predicate Trap(cfg: Config, t: set<string>) {
    t != {} && forall a {:trigger CanFollow(cfg, t, a)} | a in t :: CanFollow(cfg, t, a)
  }

  ghost predicate CanFollow(cfg: Config, t: set<string>, a: string) {
    exists b | b in t :: Routes(cfg, a, b)
  }

  /** The agent holds make_plan, or may spawn its way down to one that does. */
  predicate Reaches(cfg: Config, a: string, depth: nat)
    decreases depth
  {
    a in cfg && (cfg[a].canPlan || (depth > 0 && exists b | b in cfg[a].subagents :: Reaches(cfg, b, depth - 1)))
  }

  predicate MayPlan(cfg: Config, a: string) { Reaches(cfg, a, MAX_SUBAGENT_DEPTH) }

  lemma {:induction false} ChainReaches(cfg: Config, a: string, path: seq<string>, depth: nat)
    requires |path| <= depth && Chain(cfg, a, path) && Last(a, path) in cfg && cfg[Last(a, path)].canPlan
    ensures Reaches(cfg, a, depth)
    decreases depth
  {
    if path != [] && !cfg[a].canPlan { ChainReaches(cfg, path[0], path[1..], depth - 1); }
  }

  lemma {:induction false} ReachesChain(cfg: Config, a: string, depth: nat) returns (path: seq<string>)
    requires Reaches(cfg, a, depth)
    ensures |path| <= depth && Chain(cfg, a, path) && Last(a, path) in cfg && cfg[Last(a, path)].canPlan
    decreases depth
  {
    path := [];
    if !cfg[a].canPlan {
      var b :| b in cfg[a].subagents && Reaches(cfg, b, depth - 1);
      var rest := ReachesChain(cfg, b, depth - 1);
      path := [b] + rest;
      assert path[1..] == rest;
    }
  }

  /** A run can bring about a plan exactly when its agent may plan. */
  lemma MayPlanIff(cfg: Config, a: string, steps: seq<Step>)
    ensures MayPlan(cfg, a) <==> exists path :: Possible(cfg, a, Plans(path, steps))
  {
    if MayPlan(cfg, a) {
      var path := ReachesChain(cfg, a, MAX_SUBAGENT_DEPTH);
      assert Possible(cfg, a, Plans(path, steps));
    }
    if path :| Possible(cfg, a, Plans(path, steps)) { ChainReaches(cfg, a, path, MAX_SUBAGENT_DEPTH); }
  }

  ghost predicate OnlyPlannerPlans(cfg: Config) {
    forall a | MayPlan(cfg, a) :: a == "planner"
  }

  /** Only the planner plans, nobody routes to the planner, and routing has no trap. */
  ghost predicate Safe(cfg: Config) {
    && OnlyPlannerPlans(cfg)
    && (forall a :: !Routes(cfg, a, "planner"))
    && (forall t :: !Trap(cfg, t))
  }

  // ------------------------------------------------------- safe means it ends

  ghost function Sink(cfg: Config, s: set<string>): (a: string)
    requires Safe(cfg) && s != {}
    ensures a in s && forall b | b in s :: !Routes(cfg, a, b)
  {
    assert !Trap(cfg, s);
    var a :| a in s && !CanFollow(cfg, s, a);
    a
  }

  /** The longest way down among the agents of s. */
  ghost function Rank(cfg: Config, s: set<string>, a: string): nat
    requires Safe(cfg)
    decreases |s|
  {
    if a !in s || a == Sink(cfg, s) then 0 else 1 + Rank(cfg, s - {Sink(cfg, s)}, a)
  }

  lemma {:induction false} RankDrops(cfg: Config, s: set<string>, a: string, b: string)
    requires Safe(cfg) && a in s && b in s && Routes(cfg, a, b)
    ensures Rank(cfg, s, b) < Rank(cfg, s, a)
    decreases |s|
  {
    var sink := Sink(cfg, s);
    if b != sink { RankDrops(cfg, s - {sink}, a, b); }
  }

  ghost function Weight(cfg: Config, queue: seq<Job>): nat
    requires Safe(cfg)
  {
    if queue == [] then 0 else 1 + Rank(cfg, cfg.Keys, queue[0].agent) + Weight(cfg, queue[1..])
  }

  function Planners(queue: seq<Job>): nat {
    if queue == [] then 0 else (if queue[0].agent == "planner" then 1 else 0) + Planners(queue[1..])
  }

  function PlansLeft(st: State): nat {
    if st.planners < MAX_PLANNER_ITERATIONS then MAX_PLANNER_ITERATIONS - st.planners else 0
  }

  lemma JobsWithout(steps: seq<Step>, agent: string)
    requires !HasAgent(steps, agent)
    ensures forall i | 0 <= i < |JobsOf(steps)| :: JobsOf(steps)[i].agent != agent
  {
    if steps != [] {
      assert forall i | 0 <= i < |steps[1..]| :: steps[1..][i] == steps[i + 1];
      JobsWithout(steps[1..], agent);
    }
  }

  lemma NoPlanners(queue: seq<Job>)
    requires forall i | 0 <= i < |queue| :: queue[i].agent != "planner"
    ensures Planners(queue) == 0
  {
  }

  /** After the cap no plan brings a planner back. */
  lemma CappedPlan(queue: seq<Job>, steps: seq<Step>, planners: nat)
    requires planners >= MAX_PLANNER_ITERATIONS
    ensures Planners(Plan(queue, steps, planners)) <= Planners(queue)
  {
    var capped := Capped(steps, planners);
    if steps != [] {
      assert !HasAgent(capped, "planner");
      JobsWithout(capped, "planner");
      NoPlanners(JobsOf(capped));
    }
  }

  lemma {:induction false} CappedActs(cfg: Config, a: string, st: State, acts: seq<Act>)
    ensures DoAll(cfg, a, st, acts).planners >= st.planners
    ensures st.planners >= MAX_PLANNER_ITERATIONS ==> Planners(DoAll(cfg, a, st, acts).queue) <= Planners(st.queue)
    decreases acts
  {
    if acts != [] {
      var after := if Possible(cfg, a, acts[0]) then Do(a, st, acts[0]) else st;
      if st.planners >= MAX_PLANNER_ITERATIONS && acts[0].Plans? { CappedPlan(st.queue, acts[0].steps, st.planners); }
      CappedActs(cfg, a, after, acts[1..]);
    }
  }

  /** A run whose agent may not plan leaves the queue alone. */
  lemma {:induction false} QueueStays(cfg: Config, a: string, st: State, acts: seq<Act>)
    requires !MayPlan(cfg, a)
    ensures DoAll(cfg, a, st, acts).queue == st.queue
    decreases acts
  {
    if acts != [] {
      if acts[0].Plans? && Possible(cfg, a, acts[0]) { ChainReaches(cfg, a, acts[0].path, MAX_SUBAGENT_DEPTH); }
      QueueStays(cfg, a, if Possible(cfg, a, acts[0]) then Do(a, st, acts[0]) else st, acts[1..]);
    }
  }

  ghost predicate Drops(cfg: Config, after: State, before: State)
    requires Safe(cfg)
  {
    || PlansLeft(after) < PlansLeft(before)
    || (PlansLeft(after) == PlansLeft(before) && Planners(after.queue) < Planners(before.queue))
    || (PlansLeft(after) == PlansLeft(before) && Planners(after.queue) == Planners(before.queue)
        && Weight(cfg, after.queue) < Weight(cfg, before.queue))
  }

  /** Every completed run lowers the measure. */
  lemma CompleteDrops(cfg: Config, st: State, b: Behaviour)
    requires Safe(cfg) && CanGoOn(cfg, st)
    ensures Drops(cfg, Complete(cfg, st, b), st)
  {
    var agent := st.queue[0].agent;
    var next, rest := Complete(cfg, st, b), State(st.queue[1..], st.planners);
    var done := DoAll(cfg, agent, rest, b.acts);
    CappedActs(cfg, agent, rest, b.acts);
    if agent != "planner" { QueueStays(cfg, agent, rest, b.acts); }
    if Routes(cfg, agent, b.next) {
      RankDrops(cfg, cfg.Keys, agent, b.next);
      assert next.queue[1..] == done.queue;
    }
  }

  lemma {:induction false} MustStop(cfg: Config, st: State, policy: Policy, n: nat)
    requires Safe(cfg)
    ensures exists m: nat :: n <= m && !CanGoOn(cfg, StateAt(cfg, st, policy, m))
    decreases PlansLeft(StateAt(cfg, st, policy, n)), Planners(StateAt(cfg, st, policy, n).queue),
              Weight(cfg, StateAt(cfg, st, policy, n).queue)
  {
    var now := StateAt(cfg, st, policy, n);
    if CanGoOn(cfg, now) {
      CompleteDrops(cfg, now, policy(n, now.queue[0].agent));
      MustStop(cfg, st, policy, n + 1);
    }
  }

  /** With a safe configuration no choice of plans and routes keeps the loop going, from any queue. */
  lemma SafeEnds(cfg: Config, st: State, policy: Policy)
    requires Safe(cfg)
    ensures !Endless(cfg, st, policy)
  {
    MustStop(cfg, st, policy, 0);
  }

  // ------------------------------------------------- when done does not route

  /** The agent loop answers done itself and reads no next agent, so the runs it drives route nowhere. */
  ghost predicate Unrouted(policy: Policy) {
    forall n, a :: policy(n, a).next == ""
  }

  function WithoutRoutes(cfg: Config): Config { map a | a in cfg :: cfg[a].(allowedNext := []) }

  lemma {:induction false} SameReach(cfg: Config, a: string, depth: nat)
    ensures Reaches(WithoutRoutes(cfg), a, depth) == Reaches(cfg, a, depth)
    decreases depth
  {
    if a in cfg && depth > 0 {
      forall b | b in cfg[a].subagents ensures Reaches(WithoutRoutes(cfg), b, depth - 1) == Reaches(cfg, b, depth - 1) {
        SameReach(cfg, b, depth - 1);
      }
    }
  }

  lemma {:induction false} SameChain(cfg: Config, a: string, path: seq<string>)
    ensures Chain(WithoutRoutes(cfg), a, path) == Chain(cfg, a, path)
    decreases |path|
  {
    if path != [] { SameChain(cfg, path[0], path[1..]); }
  }

  lemma {:induction false} SameActs(cfg: Config, a: string, st: State, acts: seq<Act>)
    ensures DoAll(WithoutRoutes(cfg), a, st, acts) == DoAll(cfg, a, st, acts)
    decreases acts
  {
    if acts != [] {
      SameChain(cfg, a, acts[0].path);
      SameActs(cfg, a, if Possible(cfg, a, acts[0]) then Do(a, st, acts[0]) else st, acts[1..]);
    }
  }

  lemma WithoutRoutesIsSafe(cfg: Config)
    requires OnlyPlannerPlans(cfg)
    ensures Safe(WithoutRoutes(cfg))
  {
    var bare := WithoutRoutes(cfg);
    forall a | MayPlan(bare, a) ensures a == "planner" {
      SameReach(cfg, a, MAX_SUBAGENT_DEPTH);
      assert MayPlan(cfg, a);
    }
    forall t ensures !Trap(bare, t) {
      if a :| a in t { assert !CanFollow(bare, t, a); }
    }
  }

  lemma UnroutedComplete(cfg: Config, st: State, b: Behaviour)
    requires CanGoOn(cfg, st) && b.next == ""
    ensures Complete(WithoutRoutes(cfg), st, b) == Complete(cfg, st, b)
  {
    SameActs(cfg, st.queue[0].agent, State(st.queue[1..], st.planners), b.acts);
  }

  lemma {:induction false} UnroutedStateAt(cfg: Config, st: State, policy: Policy, n: nat)
    requires Unrouted(policy)
    ensures StateAt(WithoutRoutes(cfg), st, policy, n) == StateAt(cfg, st, policy, n)
  {
    if n > 0 {
      UnroutedStateAt(cfg, st, policy, n - 1);
      var prev := StateAt(cfg, st, policy, n - 1);
      if CanGoOn(cfg, prev) { UnroutedComplete(cfg, prev, policy(n - 1, prev.queue[0].agent)); }
    }
  }

  /** While nobody routes and only the planner plans, no choice of plans keeps the loop going, from any queue. */
  lemma UnroutedEnds(cfg: Config, st: State, policy: Policy)
    requires OnlyPlannerPlans(cfg) && Unrouted(policy)
    ensures !Endless(cfg, st, policy)
  {
    WithoutRoutesIsSafe(cfg);
    SafeEnds(WithoutRoutes(cfg), st, policy);
    forall n: nat ensures CanGoOn(WithoutRoutes(cfg), StateAt(WithoutRoutes(cfg), st, policy, n))
                          == CanGoOn(cfg, StateAt(cfg, st, policy, n)) {
      UnroutedStateAt(cfg, st, policy, n);
    }
  }

  // --------------------------------------------------- unsafe means it can run on

  /** A way for single jobs of `t` to be followed by single jobs of `t`, whatever the planner count. */
  datatype Wheel = Wheel(t: set<string>, turn: string -> Behaviour, next: string -> string)

  ghost predicate Turns(cfg: Config, w: Wheel) {
    forall a {:trigger TurnsAt(cfg, w, a)} | a in w.t :: TurnsAt(cfg, w, a)
  }

  ghost predicate TurnsAt(cfg: Config, w: Wheel, a: string) {
    w.next(a) in w.t && a in cfg && LeadsTo(cfg, a, w.turn(a), w.next(a))
  }

  ghost predicate LeadsTo(cfg: Config, a: string, b: Behaviour, next: string)
    requires a in cfg
  {
    forall job: Job, planners: nat | job.agent == a ::
      |Complete(cfg, State([job], planners), b).queue| == 1
      && Complete(cfg, State([job], planners), b).queue[0].agent == next
  }

  const START := State([Job("router", ""), Job("planner", "")], 0)

  /** A plan with the agent as its only step. */
  function GoOn(path: seq<string>, agent: string): Act { Plans(path, [Step(agent, "go")]) }

  /** The router does nothing, the planner plans the first agent of the wheel, and the wheel turns. */
  ghost function Spin(w: Wheel, first: string): Policy {
    (n, agent) =>
      if n == 0 then Behaviour([], "") else if n == 1 then Behaviour([GoOn([], first)], "") else w.turn(agent)
  }

  /** After a user message some choice of plans and routes keeps the loop going. */
  ghost predicate MayRunOn(cfg: Config) {
    exists policy :: Endless(cfg, START, policy)
  }

  ghost predicate Ready(cfg: Config) {
    "router" in cfg && "planner" in cfg && cfg["planner"].canPlan
  }

  lemma {:induction false} WheelTurns(cfg: Config, w: Wheel, first: string, k: nat)
    requires Ready(cfg) && Turns(cfg, w) && first in w.t && first != ""
    ensures var st := StateAt(cfg, START, Spin(w, first), k + 2);
      |st.queue| == 1 && st.queue[0].agent in w.t
    decreases k
  {
    var policy := Spin(w, first);
    if k == 0 {
      assert StateAt(cfg, START, policy, 0) == START;
      var s1 := StateAt(cfg, START, policy, 1);
      assert s1 == State([Job("planner", "")], 0);
      SingleStepPlan(cfg, "planner", [], State([], 0), first);
      assert StateAt(cfg, START, policy, 2) == Complete(cfg, s1, Behaviour([GoOn([], first)], ""));
    } else {
      WheelTurns(cfg, w, first, k - 1);
      var prev := StateAt(cfg, START, policy, k + 1);
      var a := prev.queue[0].agent;
      assert prev == State([prev.queue[0]], prev.planners);
      assert TurnsAt(cfg, w, a);
      assert StateAt(cfg, START, policy, k + 2) == Complete(cfg, prev, w.turn(a));
    }
  }

  lemma WheelIsEndless(cfg: Config, w: Wheel, first: string)
    requires Ready(cfg) && Turns(cfg, w) && first in w.t && first != ""
    ensures Endless(cfg, START, Spin(w, first)) && MayRunOn(cfg)
  {
    var policy := Spin(w, first);
    forall n: nat ensures CanGoOn(cfg, StateAt(cfg, START, policy, n)) {
      if n >= 2 {
        WheelTurns(cfg, w, first, n - 2);
        assert TurnsAt(cfg, w, StateAt(cfg, START, policy, n).queue[0].agent);
      } else {
        assert StateAt(cfg, START, policy, 0) == START;
        assert StateAt(cfg, START, policy, 1) == State([Job("planner", "")], 0);
      }
    }
    assert Endless(cfg, START, policy);
  }

  lemma RouteLeads(cfg: Config, a: string, b: string)
    requires Routes(cfg, a, b)
    ensures LeadsTo(cfg, a, Behaviour([], b), b)
  {
  }

  lemma {:induction false} SingleStepPlan(cfg: Config, a: string, path: seq<string>, st: State, b: string)
    requires Possible(cfg, a, GoOn(path, b)) && b != "" && (b != "planner" || st.planners < MAX_PLANNER_ITERATIONS)
    ensures DoAll(cfg, a, st, [GoOn(path, b)]) == st.(queue := [Job(b, "go")])
  {
    var steps, acts := [Step(b, "go")], [GoOn(path, b)];
    assert steps[1..] == [] && acts[1..] == [];
    assert JobsOf(steps) == [Job(b, "go")];
    assert HasAgent(steps, "planner") <==> b == "planner";
  }

  lemma PlanLeads(cfg: Config, a: string, path: seq<string>, b: string)
    requires a in cfg && Possible(cfg, a, GoOn(path, b)) && b != "" && b != "planner"
    ensures LeadsTo(cfg, a, Behaviour([GoOn(path, b)], ""), b)
  {
    forall job: Job, planners: nat | job.agent == a
      ensures Complete(cfg, State([job], planners), Behaviour([GoOn(path, b)], "")).queue == [Job(b, "go")]
    {
      SingleStepPlan(cfg, a, path, State([job][1..], planners), b);
    }
  }

  /** Each agent of t is sent on to an agent of t. */
  ghost predicate Circulates(cfg: Config, t: set<string>, next: string -> string) {
    forall a {:trigger next(a)} | a in t :: next(a) in t && Routes(cfg, a, next(a))
  }

  lemma CirculationIsEndless(cfg: Config, t: set<string>, next: string -> string, first: string)
    requires Ready(cfg) && Circulates(cfg, t, next) && first in t && first != ""
    ensures MayRunOn(cfg)
  {
    var w := Wheel(t, a => Behaviour([], next(a)), next);
    forall a | a in t ensures TurnsAt(cfg, w, a) {
      RouteLeads(cfg, a, next(a));
    }
    WheelIsEndless(cfg, w, first);
  }

  ghost function Follower(cfg: Config, t: set<string>): (next: string -> string)
    requires Trap(cfg, t)
    ensures Circulates(cfg, t, next)
  {
    var m := map a | a in t :: OneFollower(cfg, t, a);
    a => if a in m then m[a] else a
  }

  ghost function OneFollower(cfg: Config, t: set<string>, a: string): (b: string)
    ensures CanFollow(cfg, t, a) ==> b in t && Routes(cfg, a, b)
  {
    if CanFollow(cfg, t, a) then
      var b :| b in t && Routes(cfg, a, b); b
    else a
  }

  /** Agents that route among themselves never stop. */
  lemma TrapIsEndless(cfg: Config, t: set<string>)
    requires Ready(cfg) && Trap(cfg, t)
    ensures MayRunOn(cfg)
  {
    var next := Follower(cfg, t);
    var a :| a in t;
    assert next(a) in t && Routes(cfg, a, next(a));
    CirculationIsEndless(cfg, t, next, next(a));
  }

  /** An agent that routes to the planner and the planner keep each other busy: the cap strikes planner
      steps from plans, but not what done(next_agent) inserts. */
  lemma RouteToPlannerIsEndless(cfg: Config, a: string)
    requires Ready(cfg) && Routes(cfg, a, "planner") && a != ""
    ensures MayRunOn(cfg)
  {
    if a == "planner" {
      assert CanFollow(cfg, {"planner"}, "planner");
      assert Trap(cfg, {"planner"});
      TrapIsEndless(cfg, {"planner"});
    } else {
      var turn := (x: string) => if x == a then Behaviour([], "planner") else Behaviour([GoOn([], a)], "");
      var w := Wheel({a, "planner"}, turn, x => if x == a then "planner" else a);
      RouteLeads(cfg, a, "planner");
      PlanLeads(cfg, "planner", [], a);
      assert TurnsAt(cfg, w, a) && TurnsAt(cfg, w, "planner");
      WheelIsEndless(cfg, w, a);
    }
  }

  /** A second agent that may plan, itself or through the agents it spawns, can plan itself for ever, without any
      routing: the cap counts planners only. */
  lemma SecondPlannerIsEndless(cfg: Config, a: string) returns (policy: Policy)
    requires Ready(cfg) && MayPlan(cfg, a) && a != "planner" && a != ""
    ensures Unrouted(policy) && Endless(cfg, START, policy)
  {
    var path := ReachesChain(cfg, a, MAX_SUBAGENT_DEPTH);
    var w := Wheel({a}, _ => Behaviour([GoOn(path, a)], ""), _ => a);
    PlanLeads(cfg, a, path, a);
    assert TurnsAt(cfg, w, a);
    WheelIsEndless(cfg, w, a);
    policy := Spin(w, a);
  }

  /** An instance: x only spawns the planner. */
  lemma SpawnedPlannerIsEndless(cfg: Config, x: string) returns (policy: Policy)
    requires Ready(cfg) && x in cfg && "planner" in cfg[x].subagents && x != "planner" && x != ""
    ensures Unrouted(policy) && Endless(cfg, START, policy)
  {
    assert Chain(cfg, x, ["planner"]);
    ChainReaches(cfg, x, ["planner"], MAX_SUBAGENT_DEPTH);
    policy := SecondPlannerIsEndless(cfg, x);
  }

  /** The loop that drives the agent loop ends on every choice of plans exactly when nobody but the planner may plan,
      neither itself nor through the agents it spawns; allowed_next_agents does not matter. */
  lemma LoopEndsIffOnlyPlannerPlans(cfg: Config)
    requires Ready(cfg) && "" !in cfg
    ensures OnlyPlannerPlans(cfg) <==> forall policy | Unrouted(policy) :: !Endless(cfg, START, policy)
  {
    if OnlyPlannerPlans(cfg) {
      forall policy | Unrouted(policy) ensures !Endless(cfg, START, policy) { UnroutedEnds(cfg, START, policy); }
    } else {
      var a :| MayPlan(cfg, a) && a != "planner";
      var policy := SecondPlannerIsEndless(cfg, a);
    }
  }

  /** make_plan composed with the routing of the builtin done: the loop over both ends on every choice of plans
      and routes exactly when the configuration is safe. */
  lemma RoutedLoopEndsIffSafe(cfg: Config)
    requires Ready(cfg) && "" !in cfg
    ensures Safe(cfg) <==> !MayRunOn(cfg)
  {
    if Safe(cfg) {
      forall policy ensures !Endless(cfg, START, policy) { SafeEnds(cfg, START, policy); }
    } else if a :| MayPlan(cfg, a) && a != "planner" {
      var policy := SecondPlannerIsEndless(cfg, a);
    } else if a :| Routes(cfg, a, "planner") {
      RouteToPlannerIsEndless(cfg, a);
    } else {
      var t :| Trap(cfg, t);
      TrapIsEndless(cfg, t);
    }
  }
}
