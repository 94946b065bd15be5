/** The guard that lets one background task at a time work on a session, in every interleaving of requests. */
module SessionClaim {
  import opened Wrappers

  datatype Status = ACTIVE | Other(name: string)

  /** Where a request is: not begun, holding the row lock with the status it has read, done, or turned away. */
  datatype Place = Idle | Holding(seen: Status) | Spawned | Rejected

  datatype Event = Spawns(request: nat) | Wrote(status: Status)

  /** row is None when the session does not exist. */
  datatype State = State(row: Option<Status>, lock: Option<nat>, places: seq<Place>, log: seq<Event>)

  /** Lock: read the row for update. Finish: check, claim, commit and spawn. Bypass: the guard is skipped, or
      breaks and is ignored. Write: any other transaction on the row. */
  datatype Step = Lock(request: nat) | Finish(request: nat) | Bypass(request: nat) | Write(status: Status)

  /** A request is safe when it does not skip the guard and the guard does not break. */
  predicate Enabled(s: State, step: Step, safe: seq<bool>)
    requires |s.places| == |safe|
  {
    match step
    case Lock(r) => r < |safe| && s.places[r].Idle? && s.lock.None?
    case Finish(r) => r < |safe| && s.places[r].Holding?
    case Bypass(r) => r < |safe| && !safe[r] && (s.places[r].Idle? || s.places[r].Holding?)
    case Write(_) => s.row.Some? && s.lock.None?
  }

  function Put(s: State, r: nat, place: Place): State
    requires r < |s.places|
  {
    s.(places := s.places[r := place])
  }

  function Apply(s: State, step: Step, safe: seq<bool>): State
    requires |s.places| == |safe| && Enabled(s, step, safe)
  {
    match step
    case Lock(r) =>
      if s.row.Some? then Put(s, r, Holding(s.row.value)).(lock := Some(r))
      else Put(s, r, Spawned).(log := s.log + [Spawns(r)])
    case Finish(r) =>
      if s.places[r].seen.ACTIVE? then Put(s, r, Rejected).(lock := None)
      else Put(s, r, Spawned).(row := Some(ACTIVE), lock := None, log := s.log + [Spawns(r)])
    case Bypass(r) =>
      Put(s, r, Spawned).(lock := if s.lock == Some(r) then None else s.lock, log := s.log + [Spawns(r)])
    case Write(status) => s.(row := Some(status), log := s.log + [Wrote(status)])
  }

  /** create_session_task without interruption: the row is locked, read, claimed and released. */
  method CreateSessionTask(s: State, safe: seq<bool>, r: nat, skips: bool, breaks: bool)
    returns (after: State, conflict: bool)
    requires |s.places| == |safe| && r < |safe| && s.places[r].Idle? && s.lock.None?
    requires skips || breaks ==> !safe[r]
    ensures conflict <==> !skips && !breaks && s.row == Some(ACTIVE)
    ensures conflict ==> after == s.(places := s.places[r := Rejected])
    ensures !conflict ==>
      && after.places == s.places[r := Spawned] && after.log == s.log + [Spawns(r)] && after.lock.None?
      && after.row == if !skips && !breaks && s.row.Some? then Some(ACTIVE) else s.row
    ensures after == if skips || breaks then Apply(s, Bypass(r), safe)
      else if s.row.None? then Apply(s, Lock(r), safe)
      else Apply(Apply(s, Lock(r), safe), Finish(r), safe)
  {
    after, conflict := s, false;
    if !skips && !breaks {
      if s.row == Some(ACTIVE) { return Put(s, r, Rejected), true; }
      if s.row.Some? { after := after.(row := Some(ACTIVE)); }
    }
    after := Put(after, r, Spawned).(log := s.log + [Spawns(r)]);
  }

  function Initial(row: Option<Status>, n: nat): State { State(row, None, seq(n, _ => Idle), []) }

  /** The state after the steps, when each of them is possible. */
  function After(row: Option<Status>, safe: seq<bool>, steps: seq<Step>): (r: Option<State>)
    ensures r.Some? ==> |r.value.places| == |safe|
  {
    if steps == [] then Some(Initial(row, |safe|))
    else
      match After(row, safe, steps[..|steps| - 1])
      case None => None
      case Some(s) =>
        if Enabled(s, steps[|steps| - 1], safe) then Some(Apply(s, steps[|steps| - 1], safe)) else None
  }

  /** Between positions i and j someone moved the session out of ACTIVE. */
  ghost predicate Left(log: seq<Event>, i: int, j: nat)
    requires i >= -1
  {
    exists k | i < k < j && k < |log| :: log[k].Wrote? && !log[k].status.ACTIVE?
  }

  ghost predicate Exclusive(log: seq<Event>) {
    forall i, j | 0 <= i < j < |log| && log[i].Spawns? && log[j].Spawns? :: Left(log, i, j)
  }

  /** The lock holder has read what the row says, and a row that is not ACTIVE was moved there after every
      earlier task. */
  ghost predicate Inv(s: State) {
    && s.row.Some?
    && (forall r | 0 <= r < |s.places| && s.places[r].Holding? :: s.lock == Some(r) && s.places[r].seen == s.row.value)
    && Exclusive(s.log)
    && (!s.row.value.ACTIVE? ==> forall i | 0 <= i < |s.log| && s.log[i].Spawns? :: Left(s.log, i, |s.log|))
  }

  lemma LeftStays(log: seq<Event>, e: Event, i: int, j: nat)
    requires i >= -1 && Left(log, i, j)
    ensures Left(log + [e], i, j)
  {
    var k :| i < k < j && k < |log| && log[k].Wrote? && !log[k].status.ACTIVE?;
    assert (log + [e])[k] == log[k];
  }

  /** When all requests are safe, every step keeps the invariant. */
  lemma StepKeepsInv(s: State, step: Step, safe: seq<bool>)
    requires |s.places| == |safe| && Enabled(s, step, safe) && forall r | 0 <= r < |safe| :: safe[r]
    requires Inv(s)
    ensures Inv(Apply(s, step, safe))
  {
    var s' := Apply(s, step, safe);
    if s'.log != s.log {
      var e := s'.log[|s.log|];
      assert s'.log == s.log + [e];
      forall i, j | 0 <= i < j < |s'.log| && s'.log[i].Spawns? && s'.log[j].Spawns? ensures Left(s'.log, i, j) {
        assert Left(s.log, i, j);
        LeftStays(s.log, e, i, j);
      }
      forall i | 0 <= i < |s'.log| && s'.log[i].Spawns? && !s'.row.value.ACTIVE?
        ensures Left(s'.log, i, |s'.log|)
      {
        assert s'.log[|s.log|] == e;
      }
    }
  }

  lemma {:induction false} RunsKeepInv(row: Option<Status>, safe: seq<bool>, steps: seq<Step>)
    requires row.Some? && After(row, safe, steps).Some? && forall r | 0 <= r < |safe| :: safe[r]
    ensures Inv(After(row, safe, steps).value)
    decreases |steps|
  {
    if steps != [] {
      var before := steps[..|steps| - 1];
      RunsKeepInv(row, safe, before);
      StepKeepsInv(After(row, safe, before).value, steps[|steps| - 1], safe);
    }
  }

  lemma {:induction false} FewSpawns(row: Option<Status>, safe: seq<bool>, steps: seq<Step>)
    requires |safe| < 2 && After(row, safe, steps).Some?
    ensures var s := After(row, safe, steps).value;
      && (forall i | 0 <= i < |s.log| && s.log[i].Spawns? :: |safe| == 1 && s.places[0].Spawned?)
      && forall i, j | 0 <= i < j < |s.log| && s.log[i].Spawns? :: !s.log[j].Spawns?
    decreases |steps|
  {
    if steps != [] { FewSpawns(row, safe, steps[..|steps| - 1]); }
  }

  lemma AfterAppend(row: Option<Status>, safe: seq<bool>, steps: seq<Step>, step: Step)
    requires After(row, safe, steps).Some? && Enabled(After(row, safe, steps).value, step, safe)
    ensures After(row, safe, steps + [step]) == Some(Apply(After(row, safe, steps).value, step, safe))
  {
    assert (steps + [step])[..|steps|] == steps;
  }

  /** A request without a working guard, and then one more: two tasks with nothing between them. A row that
      is ACTIVE has to leave that status first. */
  lemma Clash(row: Option<Status>, safe: seq<bool>, a: nat, b: nat)
    returns (steps: seq<Step>)
    requires a < |safe| && b < |safe| && a != b && (row.Some? ==> !safe[a])
    ensures After(row, safe, steps).Some? && !Exclusive(After(row, safe, steps).value.log)
  {
    steps := [];
    if row == Some(ACTIVE) {
      AfterAppend(row, safe, steps, Write(Other("")));
      steps := steps + [Write(Other(""))];
    }
    ghost var k := |After(row, safe, steps).value.log|;
    var first := if row.None? then Lock(a) else Bypass(a);
    AfterAppend(row, safe, steps, first);
    steps := steps + [first];
    AfterAppend(row, safe, steps, Lock(b));
    steps := steps + [Lock(b)];
    if row.Some? {
      AfterAppend(row, safe, steps, Finish(b));
      steps := steps + [Finish(b)];
    }
    var log := After(row, safe, steps).value.log;
    assert log[k] == Spawns(a) && log[k + 1] == Spawns(b) && |log| == k + 2;
    assert !Left(log, k, k + 1);
  }

  /** No interleaving ever runs two tasks without the session having left ACTIVE in between, exactly when the
      session exists and every request is safe, or there is one request at most. */
  lemma ClaimIsExclusiveIff(row: Option<Status>, safe: seq<bool>)
    ensures (forall steps | After(row, safe, steps).Some? :: Exclusive(After(row, safe, steps).value.log))
            <==> |safe| < 2 || (row.Some? && forall r | 0 <= r < |safe| :: safe[r])
  {
    if |safe| < 2 {
      forall steps | After(row, safe, steps).Some? ensures Exclusive(After(row, safe, steps).value.log) {
        FewSpawns(row, safe, steps);
      }
    } else if row.Some? && forall r | 0 <= r < |safe| :: safe[r] {
      forall steps | After(row, safe, steps).Some? ensures Exclusive(After(row, safe, steps).value.log) {
        RunsKeepInv(row, safe, steps);
      }
    } else if row.None? {
      var steps := Clash(row, safe, 0, 1);
    } else {
      var r: nat :| r < |safe| && !safe[r];
      var steps := Clash(row, safe, r, if r == 0 then 1 else 0);
    }
  }

  // ------------------------------------------------------- a task that is in flight

  /** Every task was started after some write that moved the session out of ACTIVE. */
  ghost predicate StartsAfterLeaving(log: seq<Event>) {
    forall j | 0 <= j < |log| && log[j].Spawns? :: Left(log, -1, j)
  }

  /** While a task is in flight, that is, from an ACTIVE row, guarded requests start nothing before the session
      has left ACTIVE. */
  lemma {:induction false} NothingStartsBesideTask(safe: seq<bool>, steps: seq<Step>)
    requires After(Some(ACTIVE), safe, steps).Some? && forall r | 0 <= r < |safe| :: safe[r]
    ensures StartsAfterLeaving(After(Some(ACTIVE), safe, steps).value.log)
    ensures var s := After(Some(ACTIVE), safe, steps).value;
      s.row.Some? && (!s.row.value.ACTIVE? ==> Left(s.log, -1, |s.log|))
    decreases |steps|
  {
    if steps != [] {
      var before, step := steps[..|steps| - 1], steps[|steps| - 1];
      NothingStartsBesideTask(safe, before);
      RunsKeepInv(Some(ACTIVE), safe, before);
      var s, s' := After(Some(ACTIVE), safe, before).value, After(Some(ACTIVE), safe, steps).value;
      if s'.log != s.log {
        var e := s'.log[|s.log|];
        assert s'.log == s.log + [e];
        forall j | 0 <= j < |s'.log| && s'.log[j].Spawns? ensures Left(s'.log, -1, j) {
          assert Left(s.log, -1, j);
          LeftStays(s.log, e, -1, j);
        }
        if !s'.row.value.ACTIVE? { assert s'.log[|s.log|] == e; }
      }
    }
  }
}
