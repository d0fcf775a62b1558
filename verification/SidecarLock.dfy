// Who holds the sidecar's state lock, and that it is always given back
// (inference/server.py).
module SidecarLock {
  import opened Wrappers
  import opened Sidecar
  import opened SidecarProofs
  import opened SidecarMixing
  import Scoring

  predicate Held(s: State) {
    && (s.lock.ByReload? ==> s.lock.j < |s.reloads| && InsideReload(s.reloads[s.lock.j]))
    && (s.lock.ByShadow? ==> s.lock.j < |s.shadows| && InsideShadow(s.shadows[s.lock.j]))
  }

  lemma ReloadHeld(s: State, step: Step, t: State)
    requires Exclusive(s) && Held(s) && ReloadStep(s, step) == Some(t)
    ensures Held(t)
  {
  }

  lemma ShadowHeld(s: State, step: Step, t: State)
    requires Exclusive(s) && Held(s) && ShadowStep(s, step) == Some(t)
    ensures Held(t)
  {
  }

  lemma ScoringHeld(act: Scoring.Activation, s: State, step: Step, t: State)
    requires Held(s) && ScoreStep(act, s, step) == Some(t)
    ensures Held(t)
  {
    assert t.lock == s.lock && t.reloads == s.reloads && t.shadows == s.shadows;
  }

  lemma StepHeld(act: Scoring.Activation, s: State, step: Step, t: State)
    requires Exclusive(s) && Held(s) && Next(act, s, step) == Some(t)
    ensures Held(t)
  {
    if ReloadStep(s, step).Some? {
      ReloadHeld(s, step, t);
    } else if ShadowStep(s, step).Some? {
      ShadowHeld(s, step, t);
    } else {
      ScoringHeld(act, s, step, t);
    }
  }

  lemma {:induction false} RunHeld(act: Scoring.Activation, s: State, run: seq<Step>, t: State)
    requires Inv(s) && Held(s) && Exec(act, s, run) == Some(t)
    ensures Inv(t) && Held(t)
    decreases |run|
  {
    if run != [] {
      var u := Next(act, s, run[0]).value;
      StepKeeps(act, s, run[0]);
      StepHeld(act, s, run[0], u);
      RunHeld(act, u, run[1..], t);
    }
  }

  // In every reachable state the lock is free exactly when no request is between taking
  // and releasing it, and its holder is the one request that is.
  lemma LockFreeIff(act: Scoring.Activation, m: Model, run: seq<Step>, s: State)
    requires Exec(act, Boot(m), run) == Some(s)
    ensures s.lock.Free? <==>
      && (forall j :: 0 <= j < |s.reloads| ==> !InsideReload(s.reloads[j]))
      && (forall j :: 0 <= j < |s.shadows| ==> !InsideShadow(s.shadows[j]))
    ensures forall j :: 0 <= j < |s.reloads| ==> (InsideReload(s.reloads[j]) <==> s.lock == ByReload(j))
    ensures forall j :: 0 <= j < |s.shadows| ==> (InsideShadow(s.shadows[j]) <==> s.lock == ByShadow(j))
  {
    RunHeld(act, Boot(m), run, s);
  }

  // ----- the holder gets through ------------------------------------------------------------

  // A step of the request that holds the lock.
  predicate OfHolder(lock: Lock, step: Step) {
    match step
    case Load(j, _) => lock == ByReload(j)
    case SwapLive(j) => lock == ByReload(j)
    case ResetDrift(j) => lock == ByReload(j)
    case SwapTracker(j) => lock == ByReload(j)
    case InstallShadow(j, _) => lock == ByShadow(j)
    case UnloadShadow(j) => lock == ByShadow(j)
    case _ => false
  }

  predicate OnlyHolder(lock: Lock, run: seq<Step>) {
    forall i :: 0 <= i < |run| ==> OfHolder(lock, run[i])
  }

  function Rank(r: Reload): nat {
    match r
    case Reset(_, _) => 1
    case Swapped(_, _) => 2
    case Loaded(_) => 3
    case Locked => 4
    case _ => 0
  }

  lemma Nothing(act: Scoring.Activation, s: State)
    ensures Exec(act, s, []) == Some(s)
  {
  }

  function NextOf(r: Reload, j: nat): Step
    requires InsideReload(r)
  {
    match r
    case Locked => Load(j, None)
    case Loaded(_) => SwapLive(j)
    case Swapped(_, _) => ResetDrift(j)
    case Reset(_, _) => SwapTracker(j)
  }

  lemma ReloadProceeds(s: State, j: nat, t: State)
    requires j < |s.reloads| && s.lock == ByReload(j) && InsideReload(s.reloads[j])
    requires ReloadStep(s, NextOf(s.reloads[j], j)) == Some(t)
    ensures t.lock.Free? || (t.lock == s.lock && |t.reloads| == |s.reloads| && InsideReload(t.reloads[j])
                             && Rank(t.reloads[j]) < Rank(s.reloads[j]))
  {
  }

  lemma {:induction false} ReloadFrees(act: Scoring.Activation, s: State, j: nat) returns (run: seq<Step>)
    requires j < |s.reloads| && s.lock == ByReload(j) && InsideReload(s.reloads[j])
    ensures OnlyHolder(s.lock, run) && Exec(act, s, run).Some? && Exec(act, s, run).value.lock.Free?
    decreases Rank(s.reloads[j])
  {
    var step := NextOf(s.reloads[j], j);
    assert ReloadStep(s, step).Some?;
    var t := Next(act, s, step).value;
    ReloadProceeds(s, j, t);
    if t.lock.Free? {
      run := [];
      Nothing(act, t);
    } else {
      run := ReloadFrees(act, t, j);
    }
    First(act, s, step, run);
    run := [step] + run;
  }

  lemma ShadowFrees(act: Scoring.Activation, s: State, j: nat) returns (run: seq<Step>)
    requires j < |s.shadows| && s.lock == ByShadow(j) && InsideShadow(s.shadows[j])
    ensures OnlyHolder(s.lock, run) && Exec(act, s, run).Some? && Exec(act, s, run).value.lock.Free?
  {
    var step := if s.shadows[j].LockedLoad? then InstallShadow(j, None) else UnloadShadow(j);
    var t := Next(act, s, step).value;
    Nothing(act, t);
    First(act, s, step, []);
    run := [step] + [];
  }

  // The lock is never lost: from every reachable state its holder can finish, without a
  // step of any other request.
  lemma LockComesFree(act: Scoring.Activation, m: Model, before: seq<Step>, s: State) returns (run: seq<Step>)
    requires Exec(act, Boot(m), before) == Some(s)
    ensures OnlyHolder(s.lock, run) && Exec(act, s, run).Some? && Exec(act, s, run).value.lock.Free?
  {
    RunHeld(act, Boot(m), before, s);
    match s.lock
    case Free =>
      run := [];
      Nothing(act, s);
    case ByReload(j) => run := ReloadFrees(act, s, j);
    case ByShadow(j) => run := ShadowFrees(act, s, j);
  }
}
