/** Joining subagents: after a run has been resumed and completes, its paused parents are resumed in turn. */
module Join {
  import opened Wrappers

  datatype RunStatus = PENDING | RUNNING | PAUSED_TOOL | PAUSED_HITL | PAUSED_SANDBOX | PAUSED_USER
                     | COMPLETED | FAILED | CANCELLED

  datatype CallStatus = Pending | WaitingApproval | WaitingAnswer | WaitingSandbox | Executing | PausedCall
                      | CompletedCall | FailedCall

  datatype SessionStatus = Active | PausedApproval | PausedHitl | PausedSandbox | PausedSession

  /** Rows are numbered in the order of their creation; spawn is the tool call a subagent was spawned by. */
  datatype Run = Run(agent: string, status: RunStatus, error: string, parent: Option<nat>, spawn: nat)

  datatype Entry = Entry(agent: string, success: bool, error: string, summary: string)

  /** summary is the one in the result of a done call, or ""; data the entries of a patched subagents call. */
  datatype ToolCall = ToolCall(run: nat, name: string, status: CallStatus, summary: string, data: seq<Entry>)

  predicate IsPaused(s: RunStatus) { s.PAUSED_TOOL? || s.PAUSED_HITL? || s.PAUSED_SANDBOX? || s.PAUSED_USER? }

  predicate Terminal(s: RunStatus) { s.COMPLETED? || s.FAILED? || s.CANCELLED? }

  /** A parent exists before its children. */
  ghost predicate Forest(runs: seq<Run>) {
    forall i | 0 <= i < |runs| && runs[i].parent.Some? :: runs[i].parent.value < i
  }

  predicate IsChild(r: Run, parent: nat, spawn: nat) { r.parent == Some(parent) && r.spawn == spawn }

  ghost predicate SiblingsDone(runs: seq<Run>, parent: nat, spawn: nat) {
    forall i | 0 <= i < |runs| && IsChild(runs[i], parent, spawn) :: Terminal(runs[i].status)
  }

  // --------------------------------------------------- the call that is patched

  predicate Open(c: ToolCall, parent: nat) {
    && c.run == parent && c.name == "subagents"
    && (c.status.Pending? || c.status.PausedCall? || c.status.CompletedCall? || c.status.Executing?)
  }

  /** A subagents call is open unless it has failed or waits for a human or a sandbox; one that is completed is open
      still. */
  lemma OpenIff(c: ToolCall, parent: nat)
    requires c.run == parent && c.name == "subagents"
    ensures Open(c, parent) <==>
      !c.status.FailedCall? && !c.status.WaitingApproval? && !c.status.WaitingAnswer? && !c.status.WaitingSandbox?
  {
  }

  /** The latest open subagents call of the run. */
  function LatestOpen(calls: seq<ToolCall>, parent: nat): (r: Option<nat>)
    ensures r.None? <==> forall i | 0 <= i < |calls| :: !Open(calls[i], parent)
    ensures r.Some? ==> r.value < |calls| && Open(calls[r.value], parent)
    ensures r.Some? ==> forall i | r.value < i < |calls| :: !Open(calls[i], parent)
  {
    if calls == [] then None
    else if Open(calls[|calls| - 1], parent) then Some(|calls| - 1)
    else LatestOpen(calls[..|calls| - 1], parent)
  }

  function Children(runs: seq<Run>, parent: nat, spawn: nat, n: nat): (ids: seq<nat>)
    requires n <= |runs|
    ensures forall k | 0 <= k < |ids| :: ids[k] < n && IsChild(runs[ids[k]], parent, spawn)
    ensures forall i: nat | i < n && IsChild(runs[i], parent, spawn) :: i in ids
    ensures forall j, k | 0 <= j < k < |ids| :: ids[j] < ids[k]
  {
    if n == 0 then []
    else if IsChild(runs[n - 1], parent, spawn) then Children(runs, parent, spawn, n - 1) + [n - 1]
    else Children(runs, parent, spawn, n - 1)
  }

  /** The summary of the latest done call of the run. */
  function Summary(calls: seq<ToolCall>, run: nat): string {
    if calls == [] then ""
    else
      var last := calls[|calls| - 1];
      if last.run == run && last.name == "done" then last.summary else Summary(calls[..|calls| - 1], run)
  }

  function EntryFor(runs: seq<Run>, calls: seq<ToolCall>, i: nat): Entry
    requires i < |runs|
  {
    Entry(runs[i].agent, runs[i].status.COMPLETED?, runs[i].error, Summary(calls, i))
  }

  function Entries(runs: seq<Run>, calls: seq<ToolCall>, ids: seq<nat>): seq<Entry>
    requires forall k | 0 <= k < |ids| :: ids[k] < |runs|
  {
    seq(|ids|, k requires 0 <= k < |ids| => EntryFor(runs, calls, ids[k]))
  }

  function Patched(runs: seq<Run>, calls: seq<ToolCall>, parent: nat): seq<ToolCall> {
    match LatestOpen(calls, parent)
    case None => calls
    case Some(c) =>
      var entries := Entries(runs, calls, Children(runs, parent, c, |runs|));
      calls[c := calls[c].(status := CompletedCall, data := entries)]
  }

  // -------------------------------------------------------- what the patch tells

  predicate IsDoneOf(c: ToolCall, run: nat) { c.run == run && c.name == "done" }

  /** The i-th call is the last that the run has made to done. */
  ghost predicate LastDone(calls: seq<ToolCall>, run: nat, i: nat) {
    i < |calls| && IsDoneOf(calls[i], run) && forall k | i < k < |calls| :: !IsDoneOf(calls[k], run)
  }

  lemma {:induction false} SummaryIsLast(calls: seq<ToolCall>, run: nat)
    ensures forall i: nat | LastDone(calls, run, i) :: Summary(calls, run) == calls[i].summary
    ensures (forall i | 0 <= i < |calls| :: !IsDoneOf(calls[i], run)) ==> Summary(calls, run) == ""
    decreases |calls|
  {
    if calls != [] && !IsDoneOf(calls[|calls| - 1], run) {
      var rest := calls[..|calls| - 1];
      SummaryIsLast(rest, run);
      forall i: nat | LastDone(calls, run, i) ensures Summary(calls, run) == calls[i].summary {
        assert LastDone(rest, run, i);
      }
    }
  }

  /** What the parent is told of a child: its agent, whether it completed, its error, and the summary of the last done
      call it made. */
  ghost predicate Tells(e: Entry, runs: seq<Run>, calls: seq<ToolCall>, i: nat)
    requires i < |runs|
  {
    && e.agent == runs[i].agent && e.error == runs[i].error
    && (e.success <==> runs[i].status.COMPLETED?)
    && (forall k: nat | LastDone(calls, i, k) :: e.summary == calls[k].summary)
    && ((forall k | 0 <= k < |calls| :: !IsDoneOf(calls[k], i)) ==> e.summary == "")
  }

  /** The call tells of just the children it spawned, in the order of their rows. */
  ghost predicate TellsChildren(data: seq<Entry>, runs: seq<Run>, calls: seq<ToolCall>, parent: nat, spawn: nat) {
    var ids := Children(runs, parent, spawn, |runs|);
    |data| == |ids| && forall k | 0 <= k < |ids| :: Tells(data[k], runs, calls, ids[k])
  }

  /** The patch completes the latest open subagents call with what its children came to, and changes nothing else. */
  lemma PatchTells(runs: seq<Run>, calls: seq<ToolCall>, parent: nat, c: nat)
    requires c < |calls| && Open(calls[c], parent) && forall i | c < i < |calls| :: !Open(calls[i], parent)
    ensures var patched := Patched(runs, calls, parent);
      && |patched| == |calls| && (forall i | 0 <= i < |calls| && i != c :: patched[i] == calls[i])
      && patched[c] == calls[c].(status := CompletedCall, data := patched[c].data)
      && TellsChildren(patched[c].data, runs, calls, parent, c)
  {
    assert LatestOpen(calls, parent) == Some(c);
    var ids := Children(runs, parent, c, |runs|);
    forall k | 0 <= k < |ids| ensures Tells(EntryFor(runs, calls, ids[k]), runs, calls, ids[k]) {
      SummaryIsLast(calls, ids[k]);
    }
  }

  /** Without an open subagents call there is nothing to patch. */
  lemma NothingToPatch(runs: seq<Run>, calls: seq<ToolCall>, parent: nat)
    requires forall i | 0 <= i < |calls| :: !Open(calls[i], parent)
    ensures Patched(runs, calls, parent) == calls
  {
  }

  /** When a later subagents call is open it is patched instead: it is marked completed, with a failure for
      each of its children that did not complete, even for one that still waits. */
  lemma LaterCallIsPatched(runs: seq<Run>, calls: seq<ToolCall>, parent: nat, spawn: nat, later: nat)
    requires spawn < later < |calls| && Open(calls[spawn], parent) && Open(calls[later], parent)
    requires forall i | later < i < |calls| :: !Open(calls[i], parent)
    ensures var patched, ids := Patched(runs, calls, parent), Children(runs, parent, later, |runs|);
      && patched[spawn] == calls[spawn]
      && patched[later].status.CompletedCall? && TellsChildren(patched[later].data, runs, calls, parent, later)
      && forall k | 0 <= k < |ids| && IsPaused(runs[ids[k]].status) :: !patched[later].data[k].success
  {
    PatchTells(runs, calls, parent, later);
  }

  /** Two subagents calls in one message, each with one child: the first child has completed, so all its
      siblings are done, while the second still waits for an answer. */
  lemma SecondCallIsPatched(a: string, b: string)
    ensures var runs := [Run("parent", PAUSED_TOOL, "", None, 0), Run(a, COMPLETED, "", Some(0), 0),
                         Run(b, PAUSED_HITL, "", Some(0), 1)];
      var open := ToolCall(0, "subagents", PausedCall, "", []);
      && SiblingsDone(runs, 0, 0)
      && Patched(runs, [open, open], 0)[0] == open
      && Patched(runs, [open, open], 0)[1].status.CompletedCall?
  {
    var open := ToolCall(0, "subagents", PausedCall, "", []);
    var runs := [Run("parent", PAUSED_TOOL, "", None, 0), Run(a, COMPLETED, "", Some(0), 0),
                 Run(b, PAUSED_HITL, "", Some(0), 1)];
    LaterCallIsPatched(runs, [open, open], 0, 0, 1);
  }

  // ------------------------------------------------------------------- the walk

  /** Why a resumed run stopped. */
  datatype Result = Completes | WaitsForAnswer | WaitsForSandbox | UserPaused | WaitsForTool | Fails

  /** What continue_run leaves behind. */
  datatype Continued = Continued(runs: seq<Run>, calls: seq<ToolCall>, result: Result)

  type World = (seq<Run>, seq<ToolCall>, nat) -> Continued

  /** Rows may be added and statuses change, but no run moves to another parent. */
  ghost predicate Grows(before: seq<Run>, after: seq<Run>) {
    && |before| <= |after| && Forest(after)
    && forall i | 0 <= i < |before| :: after[i].parent == before[i].parent && after[i].spawn == before[i].spawn
  }

  ghost predicate Sane(world: World) {
    forall runs: seq<Run>, calls: seq<ToolCall>, p: nat | p < |runs| && Forest(runs) ::
      Grows(runs, world(runs, calls, p).runs)
  }

  /** One parent resumed because of one child, with the rows just before and just after the patch, and with what the
      parent left behind when it had been continued. */
  datatype Join = Join(child: nat, parent: nat, runs: seq<Run>, before: seq<ToolCall>, after: seq<ToolCall>,
                       left: Continued)

  /** The parent was paused, all siblings of the child were done, its call had been patched, and it was then continued
      as running. */
  ghost predicate Proper(world: World, j: Join) {
    && j.child < |j.runs| && j.parent < |j.runs|
    && j.runs[j.child].parent == Some(j.parent)
    && IsPaused(j.runs[j.parent].status)
    && SiblingsDone(j.runs, j.parent, j.runs[j.child].spawn)
    && j.after == Patched(j.runs, j.before, j.parent)
    && j.left == world(j.runs[j.parent := j.runs[j.parent].(status := RUNNING)], j.after, j.parent)
    && j.parent < |j.left.runs|
  }

  /** The call the child was spawned by is completed, and tells what its children, all of them done, have come to. */
  ghost predicate AnswersSpawningCall(world: World, j: Join)
    requires Proper(world, j) && j.runs[j.child].spawn < |j.before|
  {
    var spawn := j.runs[j.child].spawn;
    var ids := Children(j.runs, j.parent, spawn, |j.runs|);
    && |j.after| == |j.before| && j.after[spawn].status.CompletedCall?
    && TellsChildren(j.after[spawn].data, j.runs, j.before, j.parent, spawn)
    && forall k | 0 <= k < |ids| :: Terminal(j.runs[ids[k]].status)
  }

  /** A resumed parent finds the call of its children answered exactly when it has made no later subagents
      call that is open. */
  lemma AnswersSpawningCallIff(world: World, j: Join)
    requires Proper(world, j) && j.runs[j.child].spawn < |j.before|
    requires Open(j.before[j.runs[j.child].spawn], j.parent) && !j.before[j.runs[j.child].spawn].status.CompletedCall?
    ensures AnswersSpawningCall(world, j) <==>
      forall i | j.runs[j.child].spawn < i < |j.before| :: !Open(j.before[i], j.parent)
  {
    var spawn := j.runs[j.child].spawn;
    var ids := Children(j.runs, j.parent, spawn, |j.runs|);
    assert forall k | 0 <= k < |ids| :: IsChild(j.runs[ids[k]], j.parent, spawn);
    if forall i | spawn < i < |j.before| :: !Open(j.before[i], j.parent) {
      PatchTells(j.runs, j.before, j.parent, spawn);
    } else {
      assert LatestOpen(j.before, j.parent) != Some(spawn);
      assert j.after[spawn] == j.before[spawn];
    }
  }

  /** The statuses of a run: it has come to an end, it waits, or it goes on. */
  lemma StatusesSplit(status: RunStatus)
    ensures Terminal(status) <==> !IsPaused(status) && status != PENDING && status != RUNNING
    ensures IsPaused(status) <==> exists r: Result :: !r.Fails? && !r.Completes? && StatusFor(r) == status
  {
    if IsPaused(status) {
      var r := if status.PAUSED_HITL? then WaitsForAnswer else if status.PAUSED_SANDBOX? then WaitsForSandbox
               else if status.PAUSED_USER? then UserPaused else WaitsForTool;
      assert StatusFor(r) == status;
    }
  }

  /** A resumed run and its session wait for the same thing. */
  lemma SessionWaitsWithRun(r: Result)
    requires !r.Fails? && !r.Completes?
    ensures IsPaused(StatusFor(r))
    ensures StatusFor(r) == PAUSED_HITL <==> r.WaitsForAnswer?
    ensures StatusFor(r) == PAUSED_SANDBOX <==> r.WaitsForSandbox?
    ensures StatusFor(r) == PAUSED_USER <==> r.UserPaused?
    ensures SessionFor(r) == PausedHitl <==> StatusFor(r) == PAUSED_HITL
    ensures SessionFor(r) == PausedSandbox <==> StatusFor(r) == PAUSED_SANDBOX
    ensures SessionFor(r) == PausedSession <==> StatusFor(r) == PAUSED_USER
    ensures SessionFor(r) == PausedApproval <==> StatusFor(r) == PAUSED_TOOL
  {
  }

  /** The run the walk has reached. */
  ghost function Top(start: nat, log: seq<Join>): nat { if log == [] then start else log[|log| - 1].parent }

  /** The rows that a resumed parent leaves, with its result recorded. */
  ghost function RunsLeft(j: Join): seq<Run>
    requires j.parent < |j.left.runs|
  {
    if j.left.result.Fails? then j.left.runs
    else j.left.runs[j.parent := j.left.runs[j.parent].(status := StatusFor(j.left.result))]
  }

  /** A resumed parent is active; when it pauses, the session waits with it. */
  ghost function SessionLeft(j: Join): SessionStatus {
    if j.left.result.Completes? || j.left.result.Fails? then Active else SessionFor(j.left.result)
  }

  datatype Table = Table(runs: seq<Run>, calls: seq<ToolCall>, session: SessionStatus)

  ghost predicate AllProper(world: World, log: seq<Join>) { forall k | 0 <= k < |log| :: Proper(world, log[k]) }

  /** The table after the parents of the log have been resumed. */
  ghost function After(world: World, first: Table, log: seq<Join>): Table
    requires AllProper(world, log)
  {
    if log == [] then first
    else
      var last := log[|log| - 1];
      Table(RunsLeft(last), last.left.calls, SessionLeft(last))
  }

  /** Each parent is resumed because of the run resumed before it, from the table that this run has left. */
  ghost predicate Chained(world: World, start: nat, first: Table, log: seq<Join>) {
    && AllProper(world, log)
    && forall k | 0 <= k < |log| ::
         && log[k].child == Top(start, log[..k])
         && log[k].runs == After(world, first, log[..k]).runs && log[k].before == After(world, first, log[..k]).calls
  }

  function StatusFor(result: Result): RunStatus
    requires !result.Fails?
  {
    match result
    case Completes => COMPLETED
    case WaitsForAnswer => PAUSED_HITL
    case WaitsForSandbox => PAUSED_SANDBOX
    case UserPaused => PAUSED_USER
    case WaitsForTool => PAUSED_TOOL
  }

  /** The session waits for the same thing as the run. */
  function SessionFor(result: Result): SessionStatus
    requires !result.Fails? && !result.Completes?
  {
    match result
    case WaitsForAnswer => PausedHitl
    case WaitsForSandbox => PausedSandbox
    case UserPaused => PausedSession
    case WaitsForTool => PausedApproval
  }

  datatype Walk = Finished | Unfinished | Raised

  class Orchestrator {
    var runs: seq<Run>
    var calls: seq<ToolCall>
    var session: SessionStatus

    function Rows(): Table
      reads this
    {
      Table(runs, calls, session)
    }

    method AllSiblingsCompleted(parent: nat, spawn: nat) returns (done: bool)
      ensures done <==> SiblingsDone(runs, parent, spawn)
    {
      for i := 0 to |runs|
        invariant forall k | 0 <= k < i && IsChild(runs[k], parent, spawn) :: Terminal(runs[k].status)
      {
        if IsChild(runs[i], parent, spawn) && !Terminal(runs[i].status) { return false; }
      }
      return true;
    }

    method PatchPausedSubagentsToolCall(parent: nat)
      modifies this`calls
      ensures calls == Patched(runs, old(calls), parent)
    {
      var paused := LatestOpen(calls, parent);
      if paused.None? { return; }
      var ids := Children(runs, parent, paused.value, |runs|);
      var entries := [];
      for k := 0 to |ids|
        invariant calls == old(calls)
        invariant entries == Entries(runs, calls, ids[..k])
      {
        var child := runs[ids[k]];
        entries := entries + [Entry(child.agent, child.status.COMPLETED?, child.error, Summary(calls, ids[k]))];
      }
      assert ids[..|ids|] == ids;
      calls := calls[paused.value := calls[paused.value].(status := CompletedCall, data := entries)];
    }

    method SetStatus(i: nat, status: RunStatus)
      requires i < |runs|
      modifies this`runs
      ensures runs == old(runs)[i := old(runs)[i].(status := status)]
    {
      runs := runs[i := runs[i].(status := status)];
    }

    /** A resumed run completes or pauses, and the session with it; Fails is the exception that leaves. */
    method HandleAgentResumeResult(i: nat, result: Result)
      requires i < |runs| && !result.Fails?
      modifies this`runs, this`session
      ensures runs == old(runs)[i := old(runs)[i].(status := StatusFor(result))]
      ensures session == if result.Completes? then old(session) else SessionFor(result)
    {
      match result {
        case Completes => SetStatus(i, COMPLETED);
        case WaitsForAnswer => SetStatus(i, PAUSED_HITL); session := PausedHitl;
        case WaitsForSandbox => SetStatus(i, PAUSED_SANDBOX); session := PausedSandbox;
        case UserPaused => SetStatus(i, PAUSED_USER); session := PausedSession;
        case WaitsForTool => SetStatus(i, PAUSED_TOOL); session := PausedApproval;
      }
    }

    /** Resume the parent of a completed run: it is continued as running, and its result is recorded. */
    method ResumeParent(parent: nat, world: World) returns (result: Result)
      requires parent < |runs| && Forest(runs) && Sane(world)
      modifies this
      ensures Grows(old(runs), runs)
      ensures var left := world(old(runs)[parent := old(runs)[parent].(status := RUNNING)], old(calls), parent);
        && result == left.result && calls == left.calls && parent < |left.runs|
        && runs == if result.Fails? then left.runs
                   else left.runs[parent := left.runs[parent].(status := StatusFor(result))]
      ensures session == if result.Completes? || result.Fails? then Active else SessionFor(result)
    {
      SetStatus(parent, RUNNING);
      session := Active;
      assert Forest(runs);
      var continued := world(runs, calls, parent);
      assert Grows(runs, continued.runs);
      runs, calls, result := continued.runs, continued.calls, continued.result;
      if !result.Fails? { HandleAgentResumeResult(parent, result); }
    }

    /** The call of a paused parent is patched and the parent resumed, once its child and all siblings are done. */
    method JoinParent(child: nat, parent: nat, world: World) returns (ghost join: Join, result: Result)
      requires Forest(runs) && Sane(world) && child < |runs| && runs[child].parent == Some(parent)
      requires IsPaused(runs[parent].status) && SiblingsDone(runs, parent, runs[child].spawn)
      modifies this
      ensures Proper(world, join) && join.child == child && join.parent == parent
      ensures join.runs == old(runs) && join.before == old(calls) && result == join.left.result
      ensures runs == RunsLeft(join) && calls == join.left.calls && session == SessionLeft(join)
      ensures Forest(runs) && runs[parent].parent == old(runs)[parent].parent
      ensures result.Completes? ==> runs[parent].status.COMPLETED?
      ensures !result.Completes? && !result.Fails? ==> IsPaused(runs[parent].status)
    {
      ghost var before := calls;
      PatchPausedSubagentsToolCall(parent);
      ghost var after := calls;
      ghost var left := world(runs[parent := runs[parent].(status := RUNNING)], after, parent);
      join := Join(child, parent, runs, before, after, left);
      result := ResumeParent(parent, world);
    }

    /** Unfinished exactly when some sibling is not done or the last resumed parent has paused again. */
    method WalkParentChain(start: nat, world: World) returns (walk: Walk, ghost log: seq<Join>)
      requires start < |runs| && Forest(runs) && Sane(world)
      modifies this
      ensures Forest(runs) && Top(start, log) < |runs|
      ensures Chained(world, start, old(Rows()), log) && Rows() == After(world, old(Rows()), log)
      ensures |log| <= start
      ensures !walk.Raised? ==> (walk.Unfinished? <==>
        (var top := runs[Top(start, log)];
         || (log != [] && IsPaused(top.status))
         || (top.parent.Some? && IsPaused(runs[top.parent.value].status)
             && !SiblingsDone(runs, top.parent.value, top.spawn))))
      ensures walk.Finished? ==>
        (var top := runs[Top(start, log)];
         && (log == [] || top.status.COMPLETED?)
         && (top.parent.None? || !IsPaused(runs[top.parent.value].status)))
      ensures walk.Raised? ==> log != []
    {
      log := [];
      ghost var first := Rows();
      var current := start;
      while runs[current].parent.Some?
        invariant Forest(runs) && current < |runs| && current == Top(start, log)
        invariant Chained(world, start, first, log) && Rows() == After(world, first, log)
        invariant |log| + current <= start
        invariant log != [] ==> runs[current].status.COMPLETED?
        decreases current
      {
        var parent := runs[current].parent.value;
        if !IsPaused(runs[parent].status) { break; }
        var done := AllSiblingsCompleted(parent, runs[current].spawn);
        if !done { return Unfinished, log; }
        var result;
        ghost var join;
        join, result := JoinParent(current, parent, world);
        ChainGrows(world, start, first, log, join);
        log := log + [join];
        if result.Fails? { return Raised, log; }
        if !result.Completes? { return Unfinished, log; }
        current := parent;
      }
      return Finished, log;
    }
  }

  lemma {:induction false} ChainGrows(world: World, start: nat, first: Table, log: seq<Join>, j: Join)
    requires Chained(world, start, first, log) && Proper(world, j) && j.child == Top(start, log)
    requires j.runs == After(world, first, log).runs && j.before == After(world, first, log).calls
    ensures Chained(world, start, first, log + [j])
    ensures After(world, first, log + [j]) == Table(RunsLeft(j), j.left.calls, SessionLeft(j))
  {
    assert forall k | 0 <= k <= |log| :: (log + [j])[..k] == log[..k];
    assert log[..|log|] == log;
  }
}
