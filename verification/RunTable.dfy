/** The rows behind the plan: agent runs with statuses and sequence numbers. Sequence number arithmetic
    stands in for a queue; every operation is proved against the queue of module Workflow. */
module RunTable {
  import opened Workflow
  import opened Wrappers

  /** What a paused run waits for: an approval, an answer, a sandbox, or the user who stopped it. */
  datatype Pause = Tool | Hitl | Sandbox | User

  datatype Status = Pending | Running | Paused(why: Pause) | Completed | Failed | Cancelled

  datatype SessionStatus =
    | Active | WaitingApproval | WaitingAnswer | WaitingSandbox | PausedByUser | SessionCompleted

  /** One row; its index in the table is its identity. */
  datatype Run = Run(agent: string, prompt: string, status: Status, seqno: int)

  // ------------------------------------------------------------ the queries

  predicate IsPending(runs: seq<Run>, i: nat) { i < |runs| && runs[i].status.Pending? }

  /** get_next_pending: the pending row with the least sequence number. */
  function NextPending(runs: seq<Run>): (r: Option<nat>)
    ensures r.None? ==> forall i | 0 <= i < |runs| :: !IsPending(runs, i)
    ensures r.Some? ==> IsPending(runs, r.value)
    ensures r.Some? ==> forall i | 0 <= i < |runs| && IsPending(runs, i) :: runs[r.value].seqno <= runs[i].seqno
  {
    if runs == [] then None
    else
      var n := |runs| - 1;
      var rest := NextPending(runs[..n]);
      assert forall i | 0 <= i < n :: IsPending(runs[..n], i) == IsPending(runs, i);
      if runs[n].status.Pending? && (rest.None? || runs[n].seqno < runs[rest.value].seqno) then Some(n) else rest
  }

  /** The greatest number in use, or -1. */
  function Highest(numbers: seq<int>): (h: int)
    ensures h >= -1 && forall n | n in numbers :: n <= h
  {
    if numbers == [] then -1
    else
      var rest := Highest(numbers[1..]);
      assert forall n | n in numbers :: n == numbers[0] || n in numbers[1..];
      if numbers[0] > rest then numbers[0] else rest
  }

  function Numbers(runs: seq<Run>): (numbers: seq<int>)
    ensures |numbers| == |runs| && forall i | 0 <= i < |runs| :: numbers[i] == runs[i].seqno
  {
    seq(|runs|, i requires 0 <= i < |runs| => runs[i].seqno)
  }

  /** The completed runs of the planner. */
  function PlannerRuns(runs: seq<Run>): nat {
    if runs == [] then 0
    else PlannerRuns(runs[..|runs| - 1]) + CountsAsPlanner(runs[|runs| - 1])
  }

  /** The planners among the agents of completed spawned runs. */
  function SpawnedPlanners(spawned: seq<string>): nat {
    if spawned == [] then 0
    else SpawnedPlanners(spawned[..|spawned| - 1]) + AsPlanner(spawned[|spawned| - 1])
  }

  function CountsAsPlanner(r: Run): nat { if r.agent == "planner" && r.status.Completed? then 1 else 0 }

  lemma {:induction false} PlannerRunsUpdate(runs: seq<Run>, i: nat, r: Run)
    requires i < |runs|
    ensures PlannerRuns(runs[i := r]) == PlannerRuns(runs) - CountsAsPlanner(runs[i]) + CountsAsPlanner(r)
    decreases |runs|
  {
    var n := |runs| - 1;
    if i == n {
      assert runs[i := r][..n] == runs[..n];
    } else {
      assert runs[i := r][..n] == runs[..n][i := r];
      PlannerRunsUpdate(runs[..n], i, r);
    }
  }

  lemma PlannerRunsAppend(runs: seq<Run>, r: Run)
    ensures PlannerRuns(runs + [r]) == PlannerRuns(runs) + CountsAsPlanner(r)
  {
    assert (runs + [r])[..|runs|] == runs;
  }

  // ---------------------------------------------------- reading rows as a queue

  /** `order` lists exactly the pending rows by rising sequence number. */
  ghost predicate IsOrder(runs: seq<Run>, order: seq<nat>) {
    && Rising(runs, order)
    && (forall i :: i in order <==> IsPending(runs, i))
  }

  ghost predicate Rising(runs: seq<Run>, order: seq<nat>) {
    && (forall k | 0 <= k < |order| :: order[k] < |runs|)
    && (forall j, k | 0 <= j < k < |order| :: runs[order[j]].seqno < runs[order[k]].seqno)
  }

  function JobAt(runs: seq<Run>, i: nat): Job
    requires i < |runs|
  {
    Job(runs[i].agent, runs[i].prompt)
  }

  ghost function JobsAt(runs: seq<Run>, order: seq<nat>): (jobs: seq<Job>)
    requires forall k | 0 <= k < |order| :: order[k] < |runs|
    ensures |jobs| == |order| && forall k | 0 <= k < |order| :: jobs[k] == JobAt(runs, order[k])
  {
    seq(|order|, k requires 0 <= k < |order| => JobAt(runs, order[k]))
  }

  /** The rows determine the queue. */
  lemma {:induction false} OrderIsUnique(runs: seq<Run>, a: seq<nat>, b: seq<nat>)
    requires Rising(runs, a) && Rising(runs, b) && forall i :: i in a <==> i in b
    ensures a == b
    decreases |a|
  {
    if a == [] {
      HeadIn(b);
    } else {
      assert a[0] in b && b[0] in a;
      var j :| 0 <= j < |b| && b[j] == a[0];
      var k :| 0 <= k < |a| && a[k] == b[0];
      assert j == 0;
      forall i ensures i in a[1..] <==> i in b[1..] {
        if i in a[1..] { assert i in b && i != a[0]; }
        if i in b[1..] { assert i in a && i != b[0]; }
      }
      OrderIsUnique(runs, a[1..], b[1..]);
    }
  }

  /** Pending rows never share a sequence number. */
  lemma PendingNumbersDistinct(runs: seq<Run>, order: seq<nat>, i: nat, j: nat)
    requires IsOrder(runs, order) && IsPending(runs, i) && IsPending(runs, j) && i != j
    ensures runs[i].seqno != runs[j].seqno
  {
    assert i in order && j in order;
    var a :| 0 <= a < |order| && order[a] == i;
    var b :| 0 <= b < |order| && order[b] == j;
    assert a < b || b < a;
  }

  lemma HeadIn<T>(s: seq<T>)
    ensures s == [] || s[0] in s
  {
  }

  /** Adding a row leaves the positions of the others and their jobs as they were. */
  lemma OrderKept(runs: seq<Run>, order: seq<nat>, row: Run)
    requires IsOrder(runs, order)
    ensures Rising(runs + [row], order)
    ensures forall k | 0 <= k < |order| :: order[k] < |runs| && IsPending(runs, order[k])
    ensures JobsAt(runs + [row], order) == JobsAt(runs, order)
    ensures forall i: nat :: IsPending(runs + [row], i) <==> IsPending(runs, i) || (i == |runs| && row.status.Pending?)
  {
    assert forall k | 0 <= k < |order| :: order[k] in order;
  }

  lemma RisingFront(rows: seq<Run>, order: seq<nat>, id: nat)
    requires Rising(rows, order) && id < |rows|
    requires forall k | 0 <= k < |order| :: rows[id].seqno < rows[order[k]].seqno
    ensures Rising(rows, [id] + order)
    ensures JobsAt(rows, [id] + order) == [JobAt(rows, id)] + JobsAt(rows, order)
  {
    var front := [id] + order;
    assert forall k | 0 < k < |front| :: front[k] == order[k - 1];
  }

  /** A row numbered below all pending ones goes to the front. */
  lemma OrderFront(runs: seq<Run>, order: seq<nat>, row: Run)
    requires IsOrder(runs, order) && row.status.Pending?
    requires forall i | 0 <= i < |runs| && IsPending(runs, i) :: row.seqno < runs[i].seqno
    ensures IsOrder(runs + [row], [|runs|] + order)
    ensures JobsAt(runs + [row], [|runs|] + order) == [Job(row.agent, row.prompt)] + JobsAt(runs, order)
  {
    OrderKept(runs, order, row);
    RisingFront(runs + [row], order, |runs|);
    assert forall i: nat :: i in [|runs|] + order <==> i == |runs| || i in order;
  }

  /** A row numbered above all pending ones goes to the back. */
  lemma OrderBack(runs: seq<Run>, order: seq<nat>, row: Run)
    requires IsOrder(runs, order) && row.status.Pending?
    requires forall i | 0 <= i < |runs| && IsPending(runs, i) :: runs[i].seqno < row.seqno
    ensures IsOrder(runs + [row], order + [|runs|])
    ensures JobsAt(runs + [row], order + [|runs|]) == JobsAt(runs, order) + [Job(row.agent, row.prompt)]
  {
    OrderKept(runs, order, row);
    assert forall i: nat :: i in order + [|runs|] <==> i == |runs| || i in order;
  }

  /** Marking the first pending row takes it off the front. */
  lemma OrderAfterStart(runs: seq<Run>, order: seq<nat>, id: nat, rows: seq<Run>)
    requires IsOrder(runs, order) && IsPending(runs, id)
    requires forall i | 0 <= i < |runs| && IsPending(runs, i) :: runs[id].seqno <= runs[i].seqno
    requires rows == runs[id := runs[id].(status := Running)]
    ensures order != [] && order[0] == id
    ensures IsOrder(rows, order[1..])
    ensures JobsAt(rows, order[1..]) == JobsAt(runs, order)[1..]
  {
    assert id in order;
    var k :| 0 <= k < |order| && order[k] == id;
    assert order[0] in order;
    assert k == 0;
    var tail := order[1..];
    assert Rising(rows, tail) by {
      forall j | 0 <= j < |tail| ensures tail[j] < |rows| && rows[tail[j]].seqno == runs[order[j + 1]].seqno {}
    }
    forall i: nat ensures i in tail <==> IsPending(rows, i) {
      if i in tail {
        var j :| 0 <= j < |tail| && tail[j] == i;
        assert order[j + 1] in order;
      }
      if IsPending(rows, i) {
        assert i in order;
        var j :| 0 <= j < |order| && order[j] == i;
        assert tail[j - 1] == i;
      }
    }
  }

  // ----------------------------------------------------------------- the table

  /** How a run ends for the scheduling loop. Interrupted: its task is cancelled while it runs. */
  datatype Outcome = Finishes | Pauses(why: Pause) | Raises | Interrupted

  datatype LoopEnd = Drained | StoppedByUser | RunPaused(why: Pause) | RunRaised | LoopCancelled

  /** The status a run is left with. */
  function StatusAfter(outcome: Outcome): Status {
    match outcome
    case Finishes => Completed
    case Pauses(why) => Status.Paused(why)
    case Raises => Failed
    case Interrupted => Status.Paused(User)
  }

  /** spawned are the agents of the completed runs that agents have spawned: their rows have no sequence number
      and are never pending. */
  class ExecutionRepository {
    var runs: seq<Run>
    var spawned: seq<string>
    var messages: seq<int>
    var session: SessionStatus
    ghost var order: seq<nat>

    constructor ()
      ensures Valid() && Queue() == [] && PlannerCount() == 0
    {
      runs, spawned, messages, session, order := [], [], [], Active, [];
    }

    ghost predicate Valid()
      reads this
    {
      IsOrder(runs, order)
    }

    ghost function Queue(): seq<Job>
      reads this
      requires Valid()
    {
      JobsAt(runs, order)
    }

    ghost function Plan(): State
      reads this
      requires Valid()
    {
      State(Queue(), PlannerCount())
    }

    /** The completed runs of the planner, those of the plan and spawned ones. */
    function PlannerCount(): nat
      reads this
    {
      PlannerRuns(runs) + SpawnedPlanners(spawned)
    }

    /** get_next_sequence_number. */
    function NextSequenceNumber(): (n: int)
      reads this
      ensures n >= 0
      ensures forall i | 0 <= i < |runs| :: runs[i].seqno < n
      ensures forall m | m in messages :: m < n
    {
      assert forall i | 0 <= i < |runs| :: Numbers(runs)[i] in Numbers(runs);
      if Highest(Numbers(runs)) > Highest(messages) then Highest(Numbers(runs)) + 1 else Highest(messages) + 1
    }

    /** create_agent_run with status PENDING, numbered above or below all pending rows. */
    method CreatePending(agent: string, prompt: string, seqno: int, ghost front: bool)
      requires Valid()
      requires forall i | 0 <= i < |runs| && IsPending(runs, i) ::
        if front then seqno < runs[i].seqno else runs[i].seqno < seqno
      modifies this`runs, this`order
      ensures Valid()
      ensures runs == old(runs) + [Run(agent, prompt, Pending, seqno)]
      ensures Queue() == if front then [Job(agent, prompt)] + old(Queue()) else old(Queue()) + [Job(agent, prompt)]
      ensures PlannerRuns(runs) == old(PlannerRuns(runs))
    {
      var row := Run(agent, prompt, Pending, seqno);
      PlannerRunsAppend(runs, row);
      if front { OrderFront(runs, order, row); } else { OrderBack(runs, order, row); }
      order := if front then [|runs|] + order else order + [|runs|];
      runs := runs + [row];
    }

    /** cancel_pending_runs. */
    method CancelPendingRuns()
      requires Valid()
      modifies this`runs, this`order
      ensures Valid() && Queue() == []
      ensures |runs| == |old(runs)|
      ensures forall i | 0 <= i < |runs| ::
        runs[i] == if IsPending(old(runs), i) then old(runs)[i].(status := Cancelled) else old(runs)[i]
      ensures PlannerRuns(runs) == old(PlannerRuns(runs))
    {
      for i := 0 to |runs|
        invariant |runs| == |old(runs)|
        invariant forall j | 0 <= j < i ::
          runs[j] == if IsPending(old(runs), j) then old(runs)[j].(status := Cancelled) else old(runs)[j]
        invariant forall j | i <= j < |runs| :: runs[j] == old(runs)[j]
        invariant PlannerRuns(runs) == old(PlannerRuns(runs))
      {
        if runs[i].status.Pending? {
          PlannerRunsUpdate(runs, i, runs[i].(status := Cancelled));
          runs := runs[i := runs[i].(status := Cancelled)];
        }
      }
      order := [];
    }

    /** The rows of a plan, numbered from start on. */
    method CreatePlanned(steps: seq<Step>, start: int)
      requires Valid() && forall j | 0 <= j < |runs| :: runs[j].seqno < start
      modifies this`runs, this`order
      ensures Valid() && old(runs) <= runs
      ensures Queue() == old(Queue()) + JobsOf(steps)
      ensures PlannerRuns(runs) == old(PlannerRuns(runs))
    {
      ghost var before := Queue();
      for i := 0 to |steps|
        invariant Valid() && old(runs) <= runs
        invariant Queue() == before + JobsOf(steps[..i])
        invariant forall j | 0 <= j < |runs| :: runs[j].seqno < start + i
        invariant PlannerRuns(runs) == old(PlannerRuns(runs))
      {
        ghost var jobs := JobsOf(steps[..i]);
        assert steps[..i + 1] == steps[..i] + [steps[i]];
        JobsOfAppend(steps[..i], steps[i]);
        if Usable(steps[i]) {
          CreatePending(steps[i].agent, steps[i].prompt, start + i, false);
          ghost var job := [Job(steps[i].agent, steps[i].prompt)];
          assert before + jobs + job == before + (jobs + job);
        }
      }
      assert steps[..|steps|] == steps;
    }

    /** make_plan: the usable steps of the capped plan replace whatever is pending. */
    method MakePlan(steps: seq<Step>) returns (ok: bool)
      requires Valid()
      modifies this`runs, this`order
      ensures Valid()
      ensures ok <==> steps != []
      ensures Queue() == Workflow.Plan(old(Queue()), steps, old(PlannerCount()))
      ensures PlannerRuns(runs) == old(PlannerRuns(runs))
      ensures forall i | 0 <= i < |old(runs)| && !IsPending(old(runs), i) :: i < |runs| && runs[i] == old(runs)[i]
    {
      if steps == [] { return false; }
      var kept := Capped(steps, PlannerCount());
      CancelPendingRuns();
      var start := NextSequenceNumber();
      ghost var jobs := JobsOf(kept);
      CreatePlanned(kept, start);
      assert [] + jobs == jobs;
      return true;
    }

    /** The routing part of done(next_agent), once the completion rules are met. */
    method Done(cfg: Config, caller: string, next: string) returns (routed: bool)
      requires Valid()
      modifies this`runs, this`order
      ensures Valid()
      ensures routed <==> Routes(cfg, caller, next)
      ensures Queue() == Route(cfg, old(Queue()), caller, next)
      ensures PlannerRuns(runs) == old(PlannerRuns(runs))
      ensures old(runs) <= runs
    {
      routed := next != "" && caller in cfg && next in cfg[caller].allowedNext && next in cfg;
      if routed {
        var first := NextPending(runs);
        match first {
          case Some(i) =>
            CreatePending(next, "", runs[i].seqno - 1, true);
          case None =>
            HeadIn(order);
            var n := NextSequenceNumber();
            CreatePending(next, "", n, true);
        }
      }
    }

    /** The queue part of process_message: a message, then router and planner behind everything pending. */
    method ProcessMessage(routerPrompt: string, plannerPrompt: string)
      requires Valid()
      modifies this`runs, this`order, this`messages
      ensures Valid()
      ensures Queue() == old(Queue()) + [Job("router", routerPrompt), Job("planner", plannerPrompt)]
      ensures PlannerRuns(runs) == old(PlannerRuns(runs))
    {
      var next := NextSequenceNumber();
      messages := messages + [next];
      next := next + 1;
      ghost var before, jobs := Queue(), [Job("router", routerPrompt)];
      CreatePending("router", routerPrompt, next, false);
      CreatePending("planner", plannerPrompt, next + 1, false);
      assert before + jobs + [Job("planner", plannerPrompt)] == before + (jobs + [Job("planner", plannerPrompt)]);
    }

    /** create_message: the message takes a number of its own and leaves the queue as it is. */
    method CreateMessage()
      requires Valid()
      modifies this`messages
      ensures Valid() && Queue() == old(Queue())
      ensures |messages| == |old(messages)| + 1
      ensures forall i | 0 <= i < |runs| :: runs[i].seqno != messages[|messages| - 1]
    {
      var n := NextSequenceNumber();
      messages := messages + [n];
    }

    /** Mark a row that is pending as running: the front of the queue leaves it. */
    method Start(id: nat)
      requires Valid() && NextPending(runs) == Some(id)
      modifies this`runs, this`order
      ensures Valid() && old(Queue()) != []
      ensures id < |runs| && runs[id].status.Running? && |runs| == |old(runs)|
      ensures Queue() == old(Queue())[1..] && JobAt(runs, id) == old(Queue())[0]
      ensures PlannerRuns(runs) == old(PlannerRuns(runs))
    {
      PlannerRunsUpdate(runs, id, runs[id].(status := Running));
      OrderAfterStart(runs, order, id, runs[id := runs[id].(status := Running)]);
      runs := runs[id := runs[id].(status := Running)];
      order := order[1..];
    }

    /** update_status for a row that is not pending and does not become so. */
    method SetStatus(id: nat, status: Status)
      requires Valid() && id < |runs| && !IsPending(runs, id) && !status.Pending?
      modifies this`runs
      ensures Valid() && Queue() == old(Queue())
      ensures runs == old(runs)[id := old(runs)[id].(status := status)]
      ensures PlannerRuns(runs) == old(PlannerRuns(runs)) - CountsAsPlanner(old(runs)[id])
                                   + CountsAsPlanner(runs[id])
    {
      PlannerRunsUpdate(runs, id, runs[id].(status := status));
      ghost var before := runs;
      runs := runs[id := runs[id].(status := status)];
      assert forall i :: IsPending(runs, i) <==> IsPending(before, i);
    }

    /** What happens below or in the run of an agent: a plan, or the end of a spawned run. */
    method Perform(cfg: Config, agent: string, act: Act)
      requires Valid()
      modifies this`runs, this`order, this`spawned
      ensures Valid()
      ensures Plan() == if Possible(cfg, agent, act) then Do(agent, old(Plan()), act) else old(Plan())
      ensures forall i | 0 <= i < |old(runs)| && !IsPending(old(runs), i) :: i < |runs| && runs[i] == old(runs)[i]
    {
      if !Possible(cfg, agent, act) { return; }
      match act {
        case Plans(_, steps) =>
          var _ := MakePlan(steps);
        case Completes(path) =>
          spawned := spawned + [Last(agent, path)];
          assert spawned[..|spawned| - 1] == old(spawned);
      }
    }

    /** run_agent for a run that was started: its acts, its route, and the status it ends with. */
    method RunAgent(cfg: Config, id: nat, b: Behaviour, outcome: Outcome)
      requires Valid() && id < |runs| && runs[id].status.Running?
      requires runs[id].agent in cfg
      modifies this`runs, this`order, this`spawned
      ensures Valid() && id < |runs|
      ensures JobAt(runs, id) == old(JobAt(runs, id))
      ensures runs[id].status == StatusAfter(outcome)
      ensures var agent := old(runs)[id].agent;
        var done := DoAll(cfg, agent, old(Plan()), b.acts);
        Plan() == State(Route(cfg, done.queue, agent, b.next),
                        done.planners + if outcome.Finishes? then AsPlanner(agent) else 0)
    {
      var agent := runs[id].agent;
      ghost var row, before := runs[id], Plan();
      for i := 0 to |b.acts|
        invariant Valid() && id < |runs| && runs[id] == row
        invariant DoAll(cfg, agent, Plan(), b.acts[i..]) == DoAll(cfg, agent, before, b.acts)
      {
        Perform(cfg, agent, b.acts[i]);
        assert b.acts[i..][1..] == b.acts[i + 1..];
      }
      var _ := Done(cfg, agent, b.next);
      match outcome {
        case Finishes => SetStatus(id, Completed);
        case Pauses(why) => SetStatus(id, Status.Paused(why));
        case Raises => SetStatus(id, Failed);
        case Interrupted => SetStatus(id, Status.Paused(User));
      }
    }

    /** The first pending run is started and run; the session takes the status that goes with a pause. */
    method RunNext(cfg: Config, id: nat, b: Behaviour, outcome: Outcome) returns (end: Option<LoopEnd>)
      requires Valid() && NextPending(runs) == Some(id) && runs[id].agent in cfg
      modifies this
      ensures Valid() && messages == old(messages)
      ensures CanGoOn(cfg, old(Plan())) && old(Queue())[0].agent == old(runs)[id].agent
      ensures Ran(cfg, b, outcome, old(Plan()), Plan(), session, end)
    {
      Start(id);
      RunAgent(cfg, id, b, outcome);
      end := match outcome
        case Finishes => None
        case Pauses(why) => Some(RunPaused(why))
        case Raises => Some(RunRaised)
        case Interrupted => Some(LoopCancelled);
      if outcome.Interrupted? {
        SetStatus(id, Status.Paused(User));
        session := PausedByUser;
      } else if runs[id].status.Paused? {
        session := SessionFor(runs[id].status.why);
      }
    }

    /** A run of an agent that does not exist is taken from the queue, and nothing more. */
    method StartUnknown(id: nat)
      requires Valid() && NextPending(runs) == Some(id)
      modifies this`runs, this`order
      ensures Valid() && old(Queue()) != [] && old(Queue())[0].agent == old(runs)[id].agent
      ensures Plan() == old(Plan()).(queue := old(Queue())[1..])
    {
      Start(id);
    }

    /** One pass through the loop of execute_pending_runs. */
    method Pass(cfg: Config, policy: Policy, n: nat, outcome: Outcome, stopped: bool) returns (end: Option<LoopEnd>)
      requires Valid()
      modifies this
      ensures Valid() && messages == old(messages)
      ensures IsPass(cfg, policy, n, outcome, stopped, old(Plan()), Plan(), session, end)
    {
      var next := NextPending(runs);
      HeadIn(order);
      if stopped {
        session := PausedByUser;  // what the Stop button wrote
        end := Some(StoppedByUser);
      } else if next.None? {
        session := SessionCompleted;
        end := Some(Drained);
      } else if runs[next.value].agent !in cfg {
        StartUnknown(next.value);
        end := Some(RunRaised);
      } else {
        end := RunNext(cfg, next.value, policy(n, runs[next.value].agent), outcome);
      }
    }

    /** execute_pending_runs. The loop ends because the queue machine does not run on from this table. The runs
        before the last pass all finished, and they took the queue where the queue machine goes. */
    method ExecutePendingRuns(cfg: Config, policy: Policy, outcomes: nat -> Outcome, stop: nat -> bool)
      returns (end: LoopEnd, completed: nat)
      requires Valid() && !Endless(cfg, Plan(), policy)
      modifies this
      ensures Valid() && messages == old(messages)
      ensures EndsAfter(cfg, old(Plan()), policy, outcomes, stop, completed, Plan(), session, end)
    {
      completed := 0;
      ghost var first := Plan();
      ghost var last := LastPass(cfg, first, policy);
      while true
        invariant Valid() && messages == old(messages) && completed <= last && Stuck(cfg, first, policy, last)
        invariant Reached(cfg, first, policy, outcomes, stop, completed, Plan())
        decreases last - completed
      {
        var ended := PassFrom(cfg, policy, outcomes, stop, completed, first, last);
        if ended.Some? { return ended.value, completed; }
        completed := completed + 1;
      }
    }

    /** The pass after n completed runs. */
    method PassFrom(cfg: Config, policy: Policy, outcomes: nat -> Outcome, stop: nat -> bool, n: nat,
                    ghost first: State, ghost last: nat)
      returns (ended: Option<LoopEnd>)
      requires Valid() && Reached(cfg, first, policy, outcomes, stop, n, Plan())
      requires n <= last && Stuck(cfg, first, policy, last)
      modifies this
      ensures Valid() && messages == old(messages)
      ensures ended.Some? ==> EndsAfter(cfg, first, policy, outcomes, stop, n, Plan(), session, ended.value)
      ensures ended.None? ==> n < last && Reached(cfg, first, policy, outcomes, stop, n + 1, Plan())
    {
      ghost var now := Plan();
      ended := Pass(cfg, policy, n, outcomes(n), stop(n));
      if ended.Some? {
        LastPassIs(cfg, first, policy, outcomes, stop, n, now, Plan(), session, ended.value);
      } else {
        PassAdvances(cfg, first, policy, outcomes, stop, n, now, Plan(), session);
        NotStuck(cfg, first, policy, outcomes, stop, n, now, last);
      }
    }
  }

  /** The session status that goes with a paused run. */
  function SessionFor(why: Pause): SessionStatus {
    match why
    case Tool => WaitingApproval
    case Hitl => WaitingAnswer
    case Sandbox => WaitingSandbox
    case User => PausedByUser
  }

  /** The session waits for what the run waits for, and no two reasons look the same. */
  lemma SessionWaitsForRun(why: Pause)
    ensures SessionFor(why) == WaitingApproval <==> why.Tool?
    ensures SessionFor(why) == WaitingAnswer <==> why.Hitl?
    ensures SessionFor(why) == WaitingSandbox <==> why.Sandbox?
    ensures SessionFor(why) == PausedByUser <==> why.User?
  {
  }

  /** A run that was taken from the queue and run: however it ends, its acts and its route have had their effect. */
  ghost predicate Ran(cfg: Config, b: Behaviour, outcome: Outcome, before: State, after: State,
                      session: SessionStatus, end: Option<LoopEnd>)
    requires CanGoOn(cfg, before)
  {
    && after == (if outcome.Finishes? then Complete(cfg, before, b) else Performed(cfg, before, b))
    && match outcome
       case Finishes => end == None
       case Pauses(why) => end == Some(RunPaused(why)) && session == SessionFor(why)
       case Raises => end == Some(RunRaised)
       case Interrupted => end == Some(LoopCancelled) && session == PausedByUser
  }

  /** What one pass through the loop may do, from one reading of the table to the next. */
  ghost predicate IsPass(cfg: Config, policy: Policy, n: nat, outcome: Outcome, stopped: bool,
                         before: State, after: State, session: SessionStatus, end: Option<LoopEnd>)
  {
    if stopped then end == Some(StoppedByUser) && after == before && session == PausedByUser
    else if before.queue == [] then end == Some(Drained) && after == before && session == SessionCompleted
    else
      var agent := before.queue[0].agent;
      if agent !in cfg then end == Some(RunRaised) && after == before.(queue := before.queue[1..])
      else Ran(cfg, policy(n, agent), outcome, before, after, session, end)
  }

  /** The first n runs finished, and the queue machine is where it should be after them. */
  ghost predicate Reached(cfg: Config, st: State, policy: Policy, outcomes: nat -> Outcome, stop: nat -> bool,
                          n: nat, now: State)
  {
    now == StateAt(cfg, st, policy, n) && forall k: nat | k < n :: outcomes(k) == Finishes && !stop(k)
  }

  /** The loop has ended: the first n runs finished, and the last pass began where the queue machine was then. */
  ghost predicate EndsAfter(cfg: Config, st: State, policy: Policy, outcomes: nat -> Outcome, stop: nat -> bool,
                            n: nat, after: State, session: SessionStatus, end: LoopEnd)
  {
    && (forall k: nat | k < n :: outcomes(k) == Finishes && !stop(k))
    && IsPass(cfg, policy, n, outcomes(n), stop(n), StateAt(cfg, st, policy, n), after, session, Some(end))
  }

  lemma LastPassIs(cfg: Config, st: State, policy: Policy, outcomes: nat -> Outcome, stop: nat -> bool,
                   n: nat, now: State, after: State, session: SessionStatus, end: LoopEnd)
    requires Reached(cfg, st, policy, outcomes, stop, n, now)
    requires IsPass(cfg, policy, n, outcomes(n), stop(n), now, after, session, Some(end))
    ensures EndsAfter(cfg, st, policy, outcomes, stop, n, after, session, end)
  {
  }

  /** The queue machine has come to rest by the n-th run. */
  ghost predicate Stuck(cfg: Config, st: State, policy: Policy, n: nat) { !CanGoOn(cfg, StateAt(cfg, st, policy, n)) }

  lemma LastPass(cfg: Config, st: State, policy: Policy) returns (n: nat)
    requires !Endless(cfg, st, policy)
    ensures Stuck(cfg, st, policy, n)
  {
    n :| !CanGoOn(cfg, StateAt(cfg, st, policy, n));
  }

  lemma NotStuck(cfg: Config, st: State, policy: Policy, outcomes: nat -> Outcome, stop: nat -> bool, n: nat,
                 now: State, last: nat)
    requires Reached(cfg, st, policy, outcomes, stop, n, now) && CanGoOn(cfg, now) && Stuck(cfg, st, policy, last)
    ensures n != last
  {
  }

  /** A pass that does not end the loop is one step of the queue machine. */
  lemma PassAdvances(cfg: Config, st: State, policy: Policy, outcomes: nat -> Outcome, stop: nat -> bool,
                     n: nat, now: State, after: State, session: SessionStatus)
    requires Reached(cfg, st, policy, outcomes, stop, n, now)
    requires IsPass(cfg, policy, n, outcomes(n), stop(n), now, after, session, None)
    ensures Reached(cfg, st, policy, outcomes, stop, n + 1, after) && CanGoOn(cfg, now)
  {
  }
}
