/** The gate between a tool call and its tool: access, approval, and what may run when. */
module ApprovalGate {
  import opened Wrappers

  datatype Kind = Mcp | Builtin | Hitl

  /** Whether an approval is asked for, and of whom; an empty role is an absent one. */
  datatype Approving = Approving(required: bool, role: string)

  /** What the definition of the calling agent says about the tool: whether it lists it, and its override. */
  datatype Definition = Definition(lists: bool, approval: Option<Approving>)

  /** How the validation tool named in the metadata answers. */
  datatype Prevalidation = NoCheck | Passes | Refuses | Breaks

  /** A tool call with everything the gate looks at; config is the entry of the tool in the global configuration. */
  datatype Request = Request(kind: Kind, definition: Option<Definition>, viaSkill: bool, config: Approving,
                             argumentsFit: bool, prevalidation: Prevalidation, pathAllowed: bool)

  /** The agent's override comes first, then the global configuration. */
  function NeedsApproval(r: Request): Approving {
    if r.definition.Some? && r.definition.value.approval.Some? then r.definition.value.approval.value else r.config
  }

  /** The checks that come before the gate. */
  predicate Admitted(r: Request) {
    && r.argumentsFit
    && (r.prevalidation.NoCheck? || r.prevalidation.Passes?)
    && (r.kind.Mcp? ==> (r.definition.None? || r.definition.value.lists || r.viaSkill) && r.pathAllowed)
  }

  predicate Gated(r: Request) {
    match r.kind
    case Mcp => NeedsApproval(r).required
    case Builtin =>
      r.definition.Some? && r.definition.value.approval.Some? && r.definition.value.approval.value.required
    case Hitl => false
  }

  function RequiredRole(r: Request): string {
    if NeedsApproval(r).role != "" then NeedsApproval(r).role else "developer"
  }

  datatype CallStatus = Pending | WaitingApproval | WaitingAnswer | Completed | Failed

  datatype Call = Call(request: Request, status: CallStatus)

  datatype ApprovalStatus = Open | Approved | Rejected

  datatype Approval = Approval(call: nat, role: string, status: ApprovalStatus)

  /** Someone's roles, and whether the session is theirs. */
  datatype User = User(roles: set<string>, owner: bool)

  predicate Authorized(role: string, user: User) {
    || "admin" in user.roles
    || (if role == "session_owner" then user.owner else role in user.roles)
  }

  /** Admins decide on everything, the owner of the session on what is left to him, and others on what asks for a role
      they have; no other role makes a difference. */
  lemma AuthorizedIff(role: string, user: User)
    ensures "admin" in user.roles ==> Authorized(role, user)
    ensures "admin" !in user.roles && role == "session_owner" ==> (Authorized(role, user) <==> user.owner)
    ensures "admin" !in user.roles && role != "session_owner" ==> (Authorized(role, user) <==> role in user.roles)
    ensures forall other | other !in {"admin", role} ::
      Authorized(role, user) <==> Authorized(role, user.(roles := user.roles - {other}))
  {
  }

  /** The override of the agent decides whether and whom to ask, even that nobody is asked; without one the global
      configuration does, but only for tools of a server. Questions to people are never gated. */
  lemma GatedIff(r: Request)
    ensures r.kind.Hitl? ==> !Gated(r)
    ensures !r.kind.Hitl? && r.definition.Some? && r.definition.value.approval.Some? ==>
      var own := r.definition.value.approval.value;
      (Gated(r) <==> own.required) && RequiredRole(r) == if own.role == "" then "developer" else own.role
    ensures r.kind.Mcp? && (r.definition.None? || r.definition.value.approval.None?) ==>
      (Gated(r) <==> r.config.required) && RequiredRole(r) == if r.config.role == "" then "developer" else r.config.role
    ensures r.kind.Builtin? && (r.definition.None? || r.definition.value.approval.None?) ==> !Gated(r)
  {
  }

  /** What turns a call away before the gate. */
  lemma AdmittedIff(r: Request)
    ensures !Admitted(r) <==>
      || !r.argumentsFit || r.prevalidation.Refuses? || r.prevalidation.Breaks?
      || (r.kind.Mcp? && !r.pathAllowed)
      || (r.kind.Mcp? && r.definition.Some? && !r.definition.value.lists && !r.viaSkill)
  {
  }

  /** What has happened: decisions of users, and runs of tools with their success. */
  datatype Event = Decided(approval: nat, approved: bool, user: User) | Ran(call: nat, ok: bool)

  // ------------------------------------------------------- what every history keeps

  /** Approvals belong to gated calls, one each. */
  ghost predicate ApprovalsMatch(calls: seq<Call>, approvals: seq<Approval>) {
    && (forall a | 0 <= a < |approvals| ::
          && approvals[a].call < |calls|
          && Admitted(calls[approvals[a].call].request) && Gated(calls[approvals[a].call].request)
          && approvals[a].role == RequiredRole(calls[approvals[a].call].request))
    && forall a, b | 0 <= a < b < |approvals| :: approvals[a].call != approvals[b].call
  }

  ghost predicate DecidedIn(log: seq<Event>, a: nat) {
    exists i | 0 <= i < |log| :: log[i].Decided? && log[i].approval == a
  }

  /** A decision is made by someone entitled to it, and stands; nothing else settles an approval. */
  ghost predicate DecisionsStand(approvals: seq<Approval>, log: seq<Event>) {
    && (forall a | 0 <= a < |approvals| && !approvals[a].status.Open? :: DecidedIn(log, a))
    && forall i | 0 <= i < |log| && log[i].Decided? ::
      && log[i].approval < |approvals|
      && approvals[log[i].approval].status == (if log[i].approved then Approved else Rejected)
      && Authorized(approvals[log[i].approval].role, log[i].user)
  }

  /** Before position i, someone approved the call. */
  ghost predicate ApprovedBefore(approvals: seq<Approval>, log: seq<Event>, i: nat, call: nat) {
    exists j | 0 <= j < i && j < |log| ::
      log[j].Decided? && log[j].approved && log[j].approval < |approvals| && approvals[log[j].approval].call == call
  }

  ghost predicate RunsArePermitted(calls: seq<Call>, approvals: seq<Approval>, log: seq<Event>) {
    forall i | 0 <= i < |log| && log[i].Ran? ::
      && log[i].call < |calls| && Admitted(calls[log[i].call].request)
      && (Gated(calls[log[i].call].request) ==> ApprovedBefore(approvals, log, i, log[i].call))
  }

  ghost predicate Succeeded(log: seq<Event>, call: nat) {
    exists i | 0 <= i < |log| :: log[i] == Ran(call, true)
  }

  /** Once a run has succeeded its call stays completed and its tool never runs again. */
  ghost predicate SuccessIsFinal(calls: seq<Call>, log: seq<Event>) {
    && (forall c | 0 <= c < |calls| :: calls[c].status.Completed? <==> Succeeded(log, c))
    && forall i, j | 0 <= i < j < |log| && log[i].Ran? && log[i].ok && log[j].Ran? :: log[i].call != log[j].call
  }

  ghost predicate Keeps(calls: seq<Call>, approvals: seq<Approval>, log: seq<Event>) {
    && ApprovalsMatch(calls, approvals) && DecisionsStand(approvals, log)
    && RunsArePermitted(calls, approvals, log) && SuccessIsFinal(calls, log)
  }

  lemma NewCallKeeps(calls: seq<Call>, approvals: seq<Approval>, log: seq<Event>, c: Call)
    requires Keeps(calls, approvals, log) && !c.status.Completed?
    ensures Keeps(calls + [c], approvals, log)
    ensures forall a | 0 <= a < |approvals| :: approvals[a].call < |calls|
  {
    assert forall i | 0 <= i < |calls| :: (calls + [c])[i] == calls[i];
    assert !Succeeded(log, |calls|);
  }

  lemma StatusKeeps(calls: seq<Call>, approvals: seq<Approval>, log: seq<Event>, c: nat, status: CallStatus)
    requires Keeps(calls, approvals, log) && c < |calls| && !calls[c].status.Completed? && !status.Completed?
    ensures Keeps(calls[c := calls[c].(status := status)], approvals, log)
  {
  }

  lemma NewApprovalKeeps(calls: seq<Call>, approvals: seq<Approval>, log: seq<Event>, a: Approval)
    requires Keeps(calls, approvals, log)
    requires a.call < |calls| && Admitted(calls[a.call].request) && Gated(calls[a.call].request)
    requires a.status.Open? && a.role == RequiredRole(calls[a.call].request)
    requires forall b | 0 <= b < |approvals| :: approvals[b].call != a.call
    ensures Keeps(calls, approvals + [a], log)
  {
    var more := approvals + [a];
    assert forall b | 0 <= b < |approvals| :: more[b] == approvals[b];
    forall i | 0 <= i < |log| && log[i].Ran? && Gated(calls[log[i].call].request)
      ensures ApprovedBefore(more, log, i, log[i].call)
    {
      assert ApprovedBefore(approvals, log, i, log[i].call);
    }
  }

  lemma DecisionKeeps(calls: seq<Call>, approvals: seq<Approval>, log: seq<Event>, a: nat, approve: bool, user: User)
    requires Keeps(calls, approvals, log) && a < |approvals| && approvals[a].status.Open?
    requires Authorized(approvals[a].role, user)
    ensures Keeps(calls, approvals[a := approvals[a].(status := if approve then Approved else Rejected)],
                  log + [Decided(a, approve, user)])
  {
    var approvals', log' := approvals[a := approvals[a].(status := if approve then Approved else Rejected)],
                            log + [Decided(a, approve, user)];
    assert forall i | 0 <= i < |log| :: log'[i] == log[i];
    forall b | 0 <= b < |approvals'| && !approvals'[b].status.Open? ensures DecidedIn(log', b) {
      if b == a { assert log'[|log|].approval == a; } else { assert DecidedIn(log, b); }
    }
    forall i | 0 <= i < |log'| && log'[i].Ran? && Gated(calls[log'[i].call].request)
      ensures ApprovedBefore(approvals', log', i, log'[i].call)
    {
      assert ApprovedBefore(approvals, log, i, log[i].call);
    }
    SameRuns(calls, log, log');
  }

  /** Decisions do not change which calls have succeeded. */
  lemma SameRuns(calls: seq<Call>, log: seq<Event>, log': seq<Event>)
    requires SuccessIsFinal(calls, log) && |log'| == |log| + 1 && log'[..|log|] == log && log'[|log|].Decided?
    ensures SuccessIsFinal(calls, log')
  {
    assert forall i | 0 <= i < |log| :: log'[i] == log[i];
    forall c: nat ensures Succeeded(log', c) <==> Succeeded(log, c) {
      if Succeeded(log, c) {
        var i :| 0 <= i < |log| && log[i] == Ran(c, true);
        assert log'[i] == Ran(c, true);
      }
    }
  }

  lemma RunKeeps(calls: seq<Call>, approvals: seq<Approval>, log: seq<Event>, c: nat, ok: bool)
    requires Keeps(calls, approvals, log) && c < |calls| && !calls[c].status.Completed? && Admitted(calls[c].request)
    requires Gated(calls[c].request) ==> ApprovedBefore(approvals, log, |log|, c)
    ensures Keeps(calls[c := calls[c].(status := if ok then Completed else Failed)], approvals, log + [Ran(c, ok)])
  {
    var calls', log' := calls[c := calls[c].(status := if ok then Completed else Failed)], log + [Ran(c, ok)];
    assert forall i | 0 <= i < |log| :: log'[i] == log[i];
    assert log'[|log|] == Ran(c, ok);
    forall a | 0 <= a < |approvals| && !approvals[a].status.Open? ensures DecidedIn(log', a) {
      assert DecidedIn(log, a);
    }
    forall i | 0 <= i < |log'| && log'[i].Ran? && Gated(calls'[log'[i].call].request)
      ensures ApprovedBefore(approvals, log', i, log'[i].call)
    {
      assert ApprovedBefore(approvals, log, i, log'[i].call);
    }
    forall d | 0 <= d < |calls'| ensures calls'[d].status.Completed? <==> Succeeded(log', d) {
      if Succeeded(log, d) {
        var i :| 0 <= i < |log| && log[i] == Ran(d, true);
        assert log'[i] == Ran(d, true);
      }
    }
    assert !Succeeded(log, c);
    assert forall i | 0 <= i < |log| && log[i].Ran? && log[i].ok :: log[i] == Ran(log[i].call, true);
  }

  /** Over every history, a call that has an approval reaches its tool only after a user entitled to it has
      approved just that approval: never before, never when it is rejected. */
  lemma OnlyApprovedCallsRun(calls: seq<Call>, approvals: seq<Approval>, log: seq<Event>, a: nat, i: nat)
    returns (j: nat)
    requires Keeps(calls, approvals, log) && a < |approvals|
    requires i < |log| && log[i].Ran? && log[i].call == approvals[a].call
    ensures approvals[a].status.Approved?
    ensures j < i && log[j].Decided? && log[j].approval == a && log[j].approved
    ensures Authorized(RequiredRole(calls[log[i].call].request), log[j].user)
  {
    j :| j < i && log[j].Decided? && log[j].approved && log[j].approval < |approvals|
         && approvals[log[j].approval].call == log[i].call;
  }

  /** Whatever happens, the tool of a call succeeds at most once and never runs after that. */
  lemma NothingRunsAfterSuccess(calls: seq<Call>, approvals: seq<Approval>, log: seq<Event>, i: nat, j: nat)
    requires Keeps(calls, approvals, log) && i < |log| && j < |log|
    requires log[i].Ran? && log[i].ok && log[j].Ran? && log[j].call == log[i].call
    ensures j <= i && calls[log[i].call].status.Completed?
  {
    assert log[i] == Ran(log[i].call, true);
    assert Succeeded(log, log[i].call);
  }

  datatype Decision = NotFound | Unauthorized | Conflict | Recorded

  class ToolExecutor {
    var calls: seq<Call>
    var approvals: seq<Approval>
    ghost var log: seq<Event>

    constructor ()
      ensures Keeps(calls, approvals, log) && calls == [] && approvals == [] && log == []
    {
      calls, approvals, log := [], [], [];
    }

    /** Run the tool of a call: the answer of the tool is the only thing left to decide. */
    method RunTool(c: nat, ok: bool) returns (status: CallStatus)
      requires Keeps(calls, approvals, log) && c < |calls| && !calls[c].status.Completed?
      requires Admitted(calls[c].request)
      requires Gated(calls[c].request) ==> ApprovedBefore(approvals, log, |log|, c)
      modifies this`calls, this`log
      ensures Keeps(calls, approvals, log)
      ensures status == if ok then Completed else Failed
      ensures calls == old(calls)[c := old(calls)[c].(status := status)]
      ensures log == old(log) + [Ran(c, ok)]
    {
      status := if ok then Completed else Failed;
      calls := calls[c := calls[c].(status := status)];
      log := log + [Ran(c, ok)];
      RunKeeps(old(calls), approvals, old(log), c, ok);
    }

    /** A tool call is stored and executed at once. */
    method Execute(request: Request, ok: bool) returns (c: nat, status: CallStatus)
      requires Keeps(calls, approvals, log)
      modifies this
      ensures Keeps(calls, approvals, log)
      ensures c == |old(calls)| && calls == old(calls) + [Call(request, status)]
      ensures !Admitted(request) ==> status == Failed && approvals == old(approvals) && log == old(log)
      ensures Admitted(request) && Gated(request) ==>
        status == WaitingApproval && log == old(log)
        && approvals == old(approvals) + [Approval(c, RequiredRole(request), Open)]
      ensures !Gated(request) ==> approvals == old(approvals)
      ensures Admitted(request) && request.kind.Hitl? ==> status == WaitingAnswer && log == old(log)
      ensures Admitted(request) && !Gated(request) && !request.kind.Hitl? ==>
        status == (if ok then Completed else Failed) && log == old(log) + [Ran(c, ok)]
    {
      c := |calls|;
      NewCallKeeps(calls, approvals, log, Call(request, Pending));
      calls := calls + [Call(request, Pending)];
      ghost var before := calls;
      if !request.argumentsFit || request.prevalidation.Refuses? || request.prevalidation.Breaks? {
        status := Failed;
      } else if request.kind.Mcp? && !(request.definition.None? || request.definition.value.lists || request.viaSkill) {
        status := Failed;
      } else if request.kind.Mcp? && !request.pathAllowed {
        status := Failed;
      } else if request.kind.Mcp? && NeedsApproval(request).required {
        status := CreateApprovalAndWait(c);
        return;
      } else if request.kind.Builtin? && request.definition.Some? && request.definition.value.approval.Some?
                && request.definition.value.approval.value.required {
        status := CreateApprovalAndWait(c);
        return;
      } else if request.kind.Hitl? {
        status := WaitingAnswer;
      } else {
        status := RunTool(c, ok);
        return;
      }
      StatusKeeps(calls, approvals, log, c, status);
      calls := calls[c := calls[c].(status := status)];
    }

    method CreateApprovalAndWait(c: nat) returns (status: CallStatus)
      requires Keeps(calls, approvals, log) && c + 1 == |calls| && Gated(calls[c].request) && Admitted(calls[c].request)
      requires !calls[c].status.Completed? && forall a | 0 <= a < |approvals| :: approvals[a].call < c
      modifies this`calls, this`approvals
      ensures Keeps(calls, approvals, log) && status == WaitingApproval
      ensures calls == old(calls)[c := old(calls)[c].(status := WaitingApproval)]
      ensures approvals == old(approvals) + [Approval(c, RequiredRole(calls[c].request), Open)]
    {
      status := WaitingApproval;
      StatusKeeps(calls, approvals, log, c, status);
      calls := calls[c := calls[c].(status := status)];
      NewApprovalKeeps(calls, approvals, log, Approval(c, RequiredRole(calls[c].request), Open));
      approvals := approvals + [Approval(c, RequiredRole(calls[c].request), Open)];
    }

    /** ApprovalService.approve and reject. */
    method Decide(a: nat, approve: bool, user: User) returns (decision: Decision)
      requires Keeps(calls, approvals, log)
      modifies this`approvals, this`log
      ensures Keeps(calls, approvals, log)
      ensures decision.NotFound? <==> a >= |old(approvals)|
      ensures decision.Recorded? <==>
        a < |old(approvals)| && Authorized(old(approvals)[a].role, user) && old(approvals)[a].status.Open?
      ensures if decision.Recorded?
        then approvals == old(approvals)[a := old(approvals)[a].(status := if approve then Approved else Rejected)]
             && log == old(log) + [Decided(a, approve, user)]
        else approvals == old(approvals) && log == old(log)
    {
      if a >= |approvals| { return NotFound; }
      if !Authorized(approvals[a].role, user) { return Unauthorized; }
      if !approvals[a].status.Open? { return Conflict; }
      DecisionKeeps(calls, approvals, log, a, approve, user);
      approvals := approvals[a := approvals[a].(status := if approve then Approved else Rejected)];
      log := log + [Decided(a, approve, user)];
      return Recorded;
    }

    /** May come any number of times, whatever was decided. */
    method ExecuteAfterApproval(a: nat, ok: bool) returns (status: CallStatus)
      requires Keeps(calls, approvals, log)
      modifies this`calls, this`log
      ensures Keeps(calls, approvals, log)
      ensures a >= |approvals| ==> status == Failed && calls == old(calls) && log == old(log)
      ensures a < |approvals| ==>
        (var c, before := approvals[a].call, old(calls)[approvals[a].call].status;
         && calls == old(calls)[c := old(calls)[c].(status := status)]
         && if !approvals[a].status.Approved? then status == Failed && log == old(log)
            else if before.Completed? then status == Completed && log == old(log)
            else status == (if ok then Completed else Failed) && log == old(log) + [Ran(c, ok)])
    {
      if a >= |approvals| { return Failed; }
      var c := approvals[a].call;
      if !approvals[a].status.Approved? {
        if calls[c].status.Completed? {
          ghost var i: nat :| i < |log| && log[i] == Ran(c, true);
          ghost var j := OnlyApprovedCallsRun(calls, approvals, log, a, i);
        }
        StatusKeeps(calls, approvals, log, c, Failed);
        calls := calls[c := calls[c].(status := Failed)];
        return Failed;
      }
      if calls[c].status.Completed? { return Completed; }
      status := RunTool(c, ok);
    }
  }
}
