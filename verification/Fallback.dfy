/** Two LLMs behind one: when the primary fails the fallback answers, and the session remembers it. */
module Fallback {
  import opened Wrappers

  datatype Outcome = Reply(text: string) | LlmError(error: string) | OtherError(error: string)

  datatype Provider = Primary | Secondary

  /** One FallbackLLM; an empty session is an absent one. maxRetries is the attribute of its primary. */
  datatype Instance = Instance(session: string, degraded: bool, failedThisRun: bool, active: Provider,
                               maxRetries: Option<nat>)

  /** What has happened. degraded says in which mode the primary was asked, retries what it was allowed. */
  datatype Event =
    | Created(i: nat, session: string, maxRetries: Option<nat>)
    | AskedPrimary(i: nat, session: string, degraded: bool, retries: Option<nat>, outcome: Outcome)
    | AskedFallback(i: nat, outcome: Outcome)
    | Cleared(session: string)

  /** A session is degraded from the first fallback of an instance until it is cleared. */
  predicate Degraded(log: seq<Event>, session: string) {
    if log == [] then false
    else match log[|log| - 1]
      case Cleared(s) => s != session && Degraded(log[..|log| - 1], session)
      case AskedPrimary(_, s, degraded, _, outcome) =>
        (s == session && !degraded && outcome.LlmError?) || Degraded(log[..|log| - 1], session)
      case _ => Degraded(log[..|log| - 1], session)
  }

  // ------------------------------------------------------- what every history keeps

  ghost predicate FailedIn(log: seq<Event>, i: nat) {
    exists k | 0 <= k < |log| :: log[k].AskedPrimary? && log[k].i == i && log[k].outcome.LlmError?
  }

  /** An instance never asks its primary again after an LLM error. */
  ghost predicate PrimaryGivenUp(log: seq<Event>) {
    forall j, k | 0 <= j < k < |log| && log[j].AskedPrimary? && log[j].outcome.LlmError? && log[k].AskedPrimary? ::
      log[j].i != log[k].i
  }

  /** The instance was created at position k while its session was degraded. */
  ghost predicate BornDegraded(log: seq<Event>, k: nat, i: nat) {
    k < |log| && log[k].Created? && log[k].i == i && log[k].session != "" && Degraded(log[..k], log[k].session)
  }

  /** Such an instance never asks its primary with retries. */
  ghost predicate NoRetries(log: seq<Event>) {
    forall k, m | 0 <= k < |log| && 0 <= m < |log| && log[m].AskedPrimary? && BornDegraded(log, k, log[m].i) ::
      log[m].degraded
  }

  /** The flags of the instances and the shared set say what the log says. */
  ghost predicate Reflects(instances: seq<Instance>, sessions: set<string>, log: seq<Event>) {
    && (forall s :: s in sessions <==> s != "" && Degraded(log, s))
    && (forall i | 0 <= i < |instances| :: instances[i].failedThisRun <==> FailedIn(log, i))
    && (forall k, i | 0 <= k < |log| && 0 <= i < |instances| && BornDegraded(log, k, i) :: instances[i].degraded)
    && (forall k | 0 <= k < |log| && log[k].AskedPrimary? :: log[k].i < |instances|)
    && forall k | 0 <= k < |log| && log[k].Created? :: log[k].i < |instances|
  }

  /** Outside a call the primary has the retries it was created with, and in a degraded call it had none. */
  ghost predicate RetriesRestored(instances: seq<Instance>, log: seq<Event>) {
    && (forall k | 0 <= k < |log| && log[k].Created? && log[k].i < |instances| ::
          instances[log[k].i].maxRetries == log[k].maxRetries)
    && forall k | 0 <= k < |log| && log[k].AskedPrimary? && log[k].i < |instances| ::
         log[k].retries == if log[k].degraded then Off(instances[log[k].i].maxRetries)
                           else instances[log[k].i].maxRetries
  }

  function Off(retries: Option<nat>): Option<nat> { if retries.Some? then Some(0) else None }

  /** How an instance asks its primary. */
  function Asked(i: nat, me: Instance, primary: Outcome): Event {
    AskedPrimary(i, me.session, me.degraded, if me.degraded then Off(me.maxRetries) else me.maxRetries, primary)
  }

  /** An instance after a call. */
  function Answered(me: Instance, primary: Outcome, fallback: Outcome): Instance {
    if !me.failedThisRun && !primary.LlmError? then if primary.Reply? then me.(active := Primary) else me
    else me.(failedThisRun := true, degraded := me.degraded || !me.failedThisRun,
             active := if fallback.Reply? then Secondary else me.active)
  }

  /** What a call leaves behind: only an LLM error of a primary that was asked gives it up and degrades, and the one
      that has replied last is active. */
  lemma AnsweredTells(me: Instance, primary: Outcome, fallback: Outcome)
    ensures var after := Answered(me, primary, fallback);
      var gaveUp := !me.failedThisRun && primary.LlmError?;
      var asked := me.failedThisRun || gaveUp;
      && after.session == me.session && after.maxRetries == me.maxRetries
      && (after.failedThisRun <==> me.failedThisRun || gaveUp) && (after.degraded <==> me.degraded || gaveUp)
      && (asked && fallback.Reply? ==> after.active == Secondary)
      && (!asked && primary.Reply? ==> after.active == Primary)
      && (!(asked && fallback.Reply?) && !(!asked && primary.Reply?) ==> after.active == me.active)
  {
  }

  ghost predicate Keeps(instances: seq<Instance>, sessions: set<string>, log: seq<Event>) {
    PrimaryGivenUp(log) && NoRetries(log) && Reflects(instances, sessions, log) && RetriesRestored(instances, log)
  }

  /** All instances of FallbackLLM and the set they share. */
  class FallbackLLM {
    var degradedSessions: set<string>
    var instances: seq<Instance>
    ghost var log: seq<Event>

    constructor ()
      ensures Keeps(instances, degradedSessions, log) && instances == []
    {
      degradedSessions, instances, log := {}, [], [];
    }

    method Create(session: string, maxRetries: Option<nat>) returns (i: nat)
      requires Keeps(instances, degradedSessions, log)
      modifies this`instances, this`log
      ensures Keeps(instances, degradedSessions, log)
      ensures i == |old(instances)| && log == old(log) + [Created(i, session, maxRetries)]
      ensures instances == old(instances)
        + [Instance(session, session != "" && Degraded(old(log), session), false, Primary, maxRetries)]
    {
      i := |instances|;
      var degraded := session != "" && session in degradedSessions;
      CreateKeeps(instances, degradedSessions, log, Instance(session, degraded, false, Primary, maxRetries));
      instances := instances + [Instance(session, degraded, false, Primary, maxRetries)];
      log := log + [Created(i, session, maxRetries)];
    }

    method ClearSession(session: string)
      requires Keeps(instances, degradedSessions, log)
      modifies this`degradedSessions, this`log
      ensures Keeps(instances, degradedSessions, log) && log == old(log) + [Cleared(session)]
      ensures degradedSessions == old(degradedSessions) - {session}
    {
      ClearKeeps(instances, degradedSessions, log, session);
      degradedSessions := degradedSessions - {session};
      log := log + [Cleared(session)];
    }

    /** The primary is asked with the retries it has. */
    method AskPrimary(i: nat, degraded: bool, primary: Outcome)
      requires Keeps(instances, degradedSessions, log) && i < |instances|
      requires !instances[i].failedThisRun && degraded == instances[i].degraded
      modifies this
      ensures Keeps(instances, degradedSessions, log)
      ensures |instances| == |old(instances)|
      ensures instances == old(instances)[i := old(instances)[i].(
        failedThisRun := primary.LlmError?, degraded := degraded || primary.LlmError?,
        active := if primary.Reply? then Primary else old(instances)[i].active)]
      ensures log == old(log) + [Asked(i, old(instances)[i], primary)]
    {
      var me := instances[i];
      ghost var sessions := degradedSessions;
      var saved := me.maxRetries;
      if degraded && saved.Some? { me := me.(maxRetries := Some(0)); }
      ghost var event := AskedPrimary(i, me.session, degraded, me.maxRetries, primary);
      me := me.(maxRetries := saved);
      if primary.Reply? {
        me := me.(active := Primary);
      } else if primary.LlmError? {
        me := me.(failedThisRun := true);
        if !degraded {
          me := me.(degraded := true);
          if me.session != "" { degradedSessions := degradedSessions + {me.session}; }
        }
      }
      AskKeeps(instances, sessions, log, i, me, degradedSessions, event);
      instances := instances[i := me];
      log := log + [event];
    }

    method AskFallback(i: nat, fallback: Outcome)
      requires Keeps(instances, degradedSessions, log) && i < |instances|
      modifies this`instances, this`log
      ensures Keeps(instances, degradedSessions, log) && |instances| == |old(instances)|
      ensures instances == old(instances)[i := old(instances)[i].(
        active := if fallback.Reply? then Secondary else old(instances)[i].active)]
      ensures log == old(log) + [AskedFallback(i, fallback)]
    {
      var me := instances[i];
      if fallback.Reply? { me := me.(active := Secondary); }
      FallbackKeeps(instances, degradedSessions, log, i, me, AskedFallback(i, fallback));
      instances := instances[i := me];
      log := log + [AskedFallback(i, fallback)];
    }

    /** chat and achat: what the two would answer is all that is left to the outside. */
    method Chat(i: nat, primary: Outcome, fallback: Outcome) returns (outcome: Outcome)
      requires Keeps(instances, degradedSessions, log) && i < |instances|
      modifies this
      ensures Keeps(instances, degradedSessions, log) && |instances| == |old(instances)|
      ensures instances == old(instances)[i := Answered(old(instances)[i], primary, fallback)]
      ensures var me := old(instances)[i];
        if me.failedThisRun then outcome == fallback && log == old(log) + [AskedFallback(i, fallback)]
        else if !primary.LlmError? then outcome == primary && log == old(log) + [Asked(i, me, primary)]
        else
          outcome == (if fallback.LlmError? && !me.degraded then primary else fallback)
          && log == old(log) + [Asked(i, me, primary), AskedFallback(i, fallback)]
    {
      if instances[i].failedThisRun {
        AskFallback(i, fallback);
        return fallback;
      }
      var degraded := instances[i].degraded;
      AskPrimary(i, degraded, primary);
      if !primary.LlmError? { return primary; }
      AskFallback(i, fallback);
      if fallback.LlmError? && !degraded { return primary; }
      return fallback;
    }
  }

  // ------------------------------------------------------------------- the proofs

  lemma DegradedAppend(log: seq<Event>, e: Event, session: string)
    ensures Degraded(log + [e], session) <==>
      match e
      case Cleared(s) => s != session && Degraded(log, session)
      case AskedPrimary(_, s, degraded, _, outcome) =>
        (s == session && !degraded && outcome.LlmError?) || Degraded(log, session)
      case _ => Degraded(log, session)
  {
    assert (log + [e])[..|log|] == log;
  }

  lemma BornAppend(log: seq<Event>, e: Event, k: nat, i: nat)
    ensures BornDegraded(log + [e], k, i) <==>
      if k == |log| then e.Created? && e.i == i && e.session != "" && Degraded(log, e.session)
      else BornDegraded(log, k, i)
  {
    if k <= |log| { assert (log + [e])[..k] == log[..k]; }
    assert log[..|log|] == log;
  }

  lemma FailedAppend(log: seq<Event>, e: Event, i: nat)
    ensures FailedIn(log + [e], i) <==> FailedIn(log, i) || (e.AskedPrimary? && e.i == i && e.outcome.LlmError?)
  {
    var longer := log + [e];
    assert longer[|log|] == e;
    if FailedIn(log, i) {
      var k :| 0 <= k < |log| && log[k].AskedPrimary? && log[k].i == i && log[k].outcome.LlmError?;
      assert longer[k] == log[k];
    }
  }

  /** What one event may do to the instances. */
  ghost predicate Follows(before: seq<Instance>, sessions: set<string>, after: seq<Instance>, e: Event) {
    && |after| == |before| + (if e.Created? then 1 else 0)
    && (forall i | 0 <= i < |before| ::
          && after[i].maxRetries == before[i].maxRetries && (before[i].degraded ==> after[i].degraded)
          && (after[i].failedThisRun <==>
                before[i].failedThisRun || (e.AskedPrimary? && e.i == i && e.outcome.LlmError?)))
    && (e.Created? ==>
          && e.i == |before| && after[e.i].maxRetries == e.maxRetries && !after[e.i].failedThisRun
          && (e.session != "" && e.session in sessions ==> after[e.i].degraded))
    && (e.AskedPrimary? ==>
          && e.i < |before| && !before[e.i].failedThisRun && e.degraded == before[e.i].degraded
          && e.retries == if e.degraded then Off(before[e.i].maxRetries) else before[e.i].maxRetries)
  }

  lemma GivenUpKeeps(before: seq<Instance>, sessions: set<string>, log: seq<Event>, after: seq<Instance>, e: Event)
    requires Keeps(before, sessions, log) && Follows(before, sessions, after, e)
    ensures PrimaryGivenUp(log + [e])
  {
    var longer := log + [e];
    forall j, k | 0 <= j < k < |longer|
                  && longer[j].AskedPrimary? && longer[j].outcome.LlmError? && longer[k].AskedPrimary?
      ensures longer[j].i != longer[k].i
    {
      if k == |log| { assert FailedIn(log, log[j].i); }
    }
  }

  lemma NoRetriesKeeps(before: seq<Instance>, sessions: set<string>, log: seq<Event>, after: seq<Instance>, e: Event)
    requires Keeps(before, sessions, log) && Follows(before, sessions, after, e)
    ensures NoRetries(log + [e])
  {
    var longer := log + [e];
    forall k, m | 0 <= k < |longer| && 0 <= m < |longer|
                  && longer[m].AskedPrimary? && BornDegraded(longer, k, longer[m].i)
      ensures longer[m].degraded
    {
      BornAppend(log, e, k, longer[m].i);
      if m < |log| { assert longer[m] == log[m]; }
    }
  }

  lemma FlagsKeep(before: seq<Instance>, sessions: set<string>, log: seq<Event>, after: seq<Instance>, e: Event)
    requires Keeps(before, sessions, log) && Follows(before, sessions, after, e)
    ensures forall i | 0 <= i < |after| :: after[i].failedThisRun <==> FailedIn(log + [e], i)
    ensures forall k, i | 0 <= k <= |log| && 0 <= i < |after| && BornDegraded(log + [e], k, i) :: after[i].degraded
  {
    forall i | 0 <= i < |after| ensures after[i].failedThisRun <==> FailedIn(log + [e], i) {
      FailedAppend(log, e, i);
    }
    forall k, i | 0 <= k <= |log| && 0 <= i < |after| && BornDegraded(log + [e], k, i) ensures after[i].degraded {
      BornAppend(log, e, k, i);
    }
  }

  lemma AppendKeeps(before: seq<Instance>, sessions: set<string>, log: seq<Event>,
                    after: seq<Instance>, sessions': set<string>, e: Event)
    requires Keeps(before, sessions, log) && Follows(before, sessions, after, e)
    requires forall s :: s in sessions' <==> s != "" && Degraded(log + [e], s)
    ensures Keeps(after, sessions', log + [e])
  {
    GivenUpKeeps(before, sessions, log, after, e);
    NoRetriesKeeps(before, sessions, log, after, e);
    FlagsKeep(before, sessions, log, after, e);
    var longer := log + [e];
    assert forall k | 0 <= k < |log| :: longer[k] == log[k];
    assert longer[|log|] == e;
  }

  lemma CreateKeeps(instances: seq<Instance>, sessions: set<string>, log: seq<Event>, me: Instance)
    requires Keeps(instances, sessions, log) && !me.failedThisRun
    requires me.degraded <==> me.session != "" && me.session in sessions
    ensures Keeps(instances + [me], sessions, log + [Created(|instances|, me.session, me.maxRetries)])
  {
    var e := Created(|instances|, me.session, me.maxRetries);
    forall s ensures s in sessions <==> s != "" && Degraded(log + [e], s) { DegradedAppend(log, e, s); }
    AppendKeeps(instances, sessions, log, instances + [me], sessions, e);
  }

  lemma ClearKeeps(instances: seq<Instance>, sessions: set<string>, log: seq<Event>, session: string)
    requires Keeps(instances, sessions, log)
    ensures Keeps(instances, sessions - {session}, log + [Cleared(session)])
  {
    var e := Cleared(session);
    forall s ensures s in sessions - {session} <==> s != "" && Degraded(log + [e], s) { DegradedAppend(log, e, s); }
    AppendKeeps(instances, sessions, log, instances, sessions - {session}, e);
  }

  lemma AskKeeps(instances: seq<Instance>, sessions: set<string>, log: seq<Event>, i: nat, me: Instance,
                 sessions': set<string>, e: Event)
    requires Keeps(instances, sessions, log) && i < |instances| && !instances[i].failedThisRun
    requires e.AskedPrimary? && e.i == i && e.degraded == instances[i].degraded && e.session == instances[i].session
    requires e.retries == if e.degraded then Off(instances[i].maxRetries) else instances[i].maxRetries
    requires me.maxRetries == instances[i].maxRetries && (instances[i].degraded ==> me.degraded)
    requires me.failedThisRun == e.outcome.LlmError?
    requires sessions' == sessions + if e.outcome.LlmError? && !e.degraded && e.session != "" then {e.session} else {}
    ensures Keeps(instances[i := me], sessions', log + [e])
  {
    forall s ensures s in sessions' <==> s != "" && Degraded(log + [e], s) { DegradedAppend(log, e, s); }
    AppendKeeps(instances, sessions, log, instances[i := me], sessions', e);
  }

  lemma FallbackKeeps(instances: seq<Instance>, sessions: set<string>, log: seq<Event>, i: nat, me: Instance, e: Event)
    requires Keeps(instances, sessions, log) && i < |instances| && e.AskedFallback?
    requires me == instances[i].(active := me.active)
    ensures Keeps(instances[i := me], sessions, log + [e])
  {
    forall s ensures s in sessions <==> s != "" && Degraded(log + [e], s) { DegradedAppend(log, e, s); }
    AppendKeeps(instances, sessions, log, instances[i := me], sessions, e);
  }
}
