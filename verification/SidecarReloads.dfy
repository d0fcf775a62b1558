// What /reload leaves behind (inference/server.py): the live models of a run, the
// replies, and the drift window.
module SidecarReloads {
  import opened Wrappers
  import opened Tensors
  import opened Sidecar
  import opened SidecarProofs
  import Scoring

  // ----- replies ------------------------------------------------------------------------

  function NewLive(step: Step, t: State): seq<Model> {
    if step.SwapLive? then [t.live] else []
  }

  // The models that a run makes live, in order.
  function Lives(act: Scoring.Activation, s: State, run: seq<Step>): seq<Model>
    decreases |run|
  {
    if run == [] || Next(act, s, run[0]).None? then []
    else
      var t := Next(act, s, run[0]).value;
      NewLive(run[0], t) + Lives(act, t, run[1..])
  }

  ghost predicate WasLive(lives: seq<Model>, version: string) {
    exists i :: 0 <= i < |lives| && lives[i].version == version
  }

  predicate SwappedAt(lives: seq<Model>, i: nat, was: string, now: string) {
    i + 1 < |lives| && lives[i].version == was && lives[i + 1].version == now
  }

  ghost predicate Replaced(lives: seq<Model>, was: string, now: string) {
    exists i :: SwappedAt(lives, i, was, now)
  }

  ghost predicate TrueReply(lives: seq<Model>, live: Model, r: Reload) {
    match r
    case Swapped(was, m) => m == live && Replaced(lives, was.version, m.version)
    case Reset(was, m) => m == live && Replaced(lives, was.version, m.version)
    case Done(Kept(v)) => WasLive(lives, v)
    case Done(Reloaded(was, now)) => Replaced(lives, was, now)
    case _ => true
  }

  ghost predicate TrueReplies(lives: seq<Model>, s: State) {
    && lives != [] && lives[|lives| - 1] == s.live
    && forall j :: 0 <= j < |s.reloads| ==> TrueReply(lives, s.live, s.reloads[j])
  }

  lemma MoreLives(lives: seq<Model>, m: Model, live: Model, r: Reload)
    requires TrueReply(lives, live, r) && !r.Swapped? && !r.Reset?
    ensures TrueReply(lives + [m], m, r)
  {
    var more := lives + [m];
    match r
    case Done(Kept(v)) =>
      var i :| 0 <= i < |lives| && lives[i].version == v;
      assert more[i].version == v;
    case Done(Reloaded(was, now)) =>
      var i :| SwappedAt(lives, i, was, now);
      assert SwappedAt(more, i, was, now);
    case _ =>
  }

  lemma SwapTrue(lives: seq<Model>, s: State, j: nat, t: State)
    requires Exclusive(s) && TrueReplies(lives, s) && ReloadStep(s, SwapLive(j)) == Some(t)
    ensures TrueReplies(lives + [t.live], t)
  {
    var more := lives + [t.live];
    assert SwappedAt(more, |lives| - 1, s.live.version, t.live.version);
    forall i | 0 <= i < |t.reloads|
      ensures TrueReply(more, t.live, t.reloads[i])
    {
      if i != j {
        assert !InsideReload(s.reloads[i]) by {
          assert InsideReload(s.reloads[j]);
        }
        MoreLives(lives, t.live, s.live, s.reloads[i]);
      }
    }
  }

  lemma LoadTrue(lives: seq<Model>, s: State, j: nat, found: Option<Model>, t: State)
    requires TrueReplies(lives, s) && ReloadStep(s, Load(j, found)) == Some(t)
    ensures TrueReplies(lives, t)
  {
    assert lives[|lives| - 1].version == s.live.version;
  }

  lemma OtherTrue(act: Scoring.Activation, lives: seq<Model>, s: State, step: Step, t: State)
    requires TrueReplies(lives, s) && Next(act, s, step) == Some(t) && !step.SwapLive? && !step.Load?
    ensures TrueReplies(lives, t)
  {
    if ReloadStep(s, step).Some? {
      ReloadTrue(lives, s, step, t);
    } else {
      assert t.reloads == s.reloads && t.live == s.live;
    }
  }

  lemma ReloadTrue(lives: seq<Model>, s: State, step: Step, t: State)
    requires TrueReplies(lives, s) && ReloadStep(s, step) == Some(t) && !step.SwapLive? && !step.Load?
    ensures TrueReplies(lives, t)
  {
  }

  lemma StepTrue(act: Scoring.Activation, lives: seq<Model>, s: State, step: Step, t: State)
    requires Exclusive(s) && TrueReplies(lives, s) && Next(act, s, step) == Some(t)
    ensures TrueReplies(lives + NewLive(step, t), t)
  {
    if step.SwapLive? {
      SwapTrue(lives, s, step.j, t);
    } else {
      assert lives + [] == lives;
      if step.Load? {
        LoadTrue(lives, s, step.j, step.found, t);
      } else {
        OtherTrue(act, lives, s, step, t);
      }
    }
  }

  lemma Regroup<T>(a: seq<T>, b: seq<T>, c: seq<T>)
    ensures (a + b) + c == a + (b + c)
  {
  }

  lemma {:induction false} RunTrue(act: Scoring.Activation, lives: seq<Model>, s: State, run: seq<Step>)
    requires Inv(s) && TrueReplies(lives, s) && Exec(act, s, run).Some?
    ensures TrueReplies(lives + Lives(act, s, run), Exec(act, s, run).value)
    decreases |run|
  {
    if run == [] {
      assert lives + Lives(act, s, run) == lives;
    } else {
      var t := Next(act, s, run[0]).value;
      StepKeeps(act, s, run[0]);
      StepTrue(act, lives, s, run[0], t);
      RunTrue(act, lives + NewLive(run[0], t), t, run[1..]);
      Regroup(lives, NewLive(run[0], t), Lives(act, t, run[1..]));
    }
  }

  // Every answer to /reload is true: one that reports a swap names two models that were
  // live one after the other, and one that reports a refusal names a model that was live.
  lemma RepliesTrue(act: Scoring.Activation, m: Model, run: seq<Step>, j: nat)
    requires Exec(act, Boot(m), run).Some?
    requires var s := Exec(act, Boot(m), run).value; j < |s.reloads| && s.reloads[j].Done?
    ensures var lives := [m] + Lives(act, Boot(m), run);
            match Exec(act, Boot(m), run).value.reloads[j].reply
            case Kept(v) => WasLive(lives, v)
            case Reloaded(was, now) => Replaced(lives, was, now)
  {
    RunTrue(act, [m], Boot(m), run);
    var r := Exec(act, Boot(m), run).value.reloads[j];
    assert TrueReply([m] + Lives(act, Boot(m), run), Exec(act, Boot(m), run).value.live, r);
  }

  // ----- the drift window -----------------------------------------------------------------

  // The live model is new and the drift window is not.
  predicate MidReset(s: State) {
    s.lock.ByReload? && s.lock.j < |s.reloads| && s.reloads[s.lock.j].Swapped?
  }

  predicate DriftOfLive(s: State) {
    && (!MidReset(s) ==> s.drift.mean == s.live.bundle.mean && s.drift.scale == s.live.bundle.scale)
    && forall j :: 0 <= j < |s.reloads| && s.reloads[j].Swapped? ==> s.reloads[j].new' == s.live
  }

  lemma ScoringDrift(act: Scoring.Activation, s: State, step: Step)
    requires Exclusive(s) && DriftOfLive(s) && ScoreStep(act, s, step).Some?
    ensures DriftOfLive(ScoreStep(act, s, step).value)
  {
    var t := ScoreStep(act, s, step).value;
    assert t.live == s.live && t.reloads == s.reloads && t.lock == s.lock;
    assert t.drift.mean == s.drift.mean && t.drift.scale == s.drift.scale;
  }

  lemma LockedDrift(s: State, step: Step)
    requires Exclusive(s) && DriftOfLive(s)
    ensures ReloadStep(s, step).Some? ==> DriftOfLive(ReloadStep(s, step).value)
    ensures ShadowStep(s, step).Some? ==> DriftOfLive(ShadowStep(s, step).value)
  {
  }

  lemma {:induction false} RunDrift(act: Scoring.Activation, s: State, run: seq<Step>)
    requires Inv(s) && DriftOfLive(s) && Exec(act, s, run).Some?
    ensures Inv(Exec(act, s, run).value) && DriftOfLive(Exec(act, s, run).value)
    decreases |run|
  {
    if run != [] {
      StepKeeps(act, s, run[0]);
      if ScoreStep(act, s, run[0]).Some? {
        ScoringDrift(act, s, run[0]);
      } else {
        LockedDrift(s, run[0]);
      }
      RunDrift(act, Next(act, s, run[0]).value, run[1..]);
    }
  }

  function NewReading(step: Step, t: State): seq<Row> {
    if step.Score? && step.i < |t.scorers| && t.scorers[step.i].Scored? then [t.scorers[step.i].x] else []
  }

  // The readings that the requests of a run score, in order.
  function ScoredReadings(act: Scoring.Activation, s: State, run: seq<Step>): seq<Row>
    decreases |run|
  {
    if run == [] || Next(act, s, run[0]).None? then []
    else
      var t := Next(act, s, run[0]).value;
      NewReading(run[0], t) + ScoredReadings(act, t, run[1..])
  }

  lemma StepReadings(act: Scoring.Activation, s: State, step: Step, t: State)
    requires Next(act, s, step) == Some(t) && !step.ResetDrift?
    ensures t.drift.readings == s.drift.readings + NewReading(step, t)
  {
  }

  lemma {:induction false} RunReadings(act: Scoring.Activation, s: State, run: seq<Step>)
    requires Exec(act, s, run).Some? && forall i :: 0 <= i < |run| ==> !run[i].ResetDrift?
    ensures Exec(act, s, run).value.drift.readings == s.drift.readings + ScoredReadings(act, s, run)
    decreases |run|
  {
    if run != [] {
      var t := Next(act, s, run[0]).value;
      StepReadings(act, s, run[0], t);
      RunReadings(act, t, run[1..]);
      Regroup(s.drift.readings, NewReading(run[0], t), ScoredReadings(act, t, run[1..]));
    }
  }

  // Whenever the lock is free, drift is measured against the training statistics of the
  // live model; and since the last reset, the window has been told every reading scored,
  // in the order of scoring, and nothing else.
  lemma DriftFollowsLive(act: Scoring.Activation, m: Model, run: seq<Step>)
    requires Exec(act, Boot(m), run).Some? && Exec(act, Boot(m), run).value.lock.Free?
    ensures var s := Exec(act, Boot(m), run).value;
            s.drift.mean == s.live.bundle.mean && s.drift.scale == s.live.bundle.scale
  {
    RunDrift(act, Boot(m), run);
  }

  lemma ReadingsSinceReset(act: Scoring.Activation, s: State, j: nat, t: State, run: seq<Step>)
    requires Next(act, s, ResetDrift(j)) == Some(t)
    requires Exec(act, t, run).Some? && forall i :: 0 <= i < |run| ==> !run[i].ResetDrift?
    ensures Exec(act, t, run).value.drift.readings == ScoredReadings(act, t, run)
  {
    RunReadings(act, t, run);
  }
}
