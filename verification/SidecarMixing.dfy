// Shadow evidence is not always per champion (inference/server.py): how many readings
// of an earlier champion a fresh tracker can be made to hold.
module SidecarMixing {
  import opened Wrappers
  import opened Tallies
  import opened Tensors
  import opened Sidecar
  import opened SidecarProofs
  import Scoring

  // ----- composing runs -----------------------------------------------------------------

  lemma First(act: Scoring.Activation, s: State, step: Step, rest: seq<Step>)
    requires Next(act, s, step).Some?
    ensures Exec(act, s, [step] + rest) == Exec(act, Next(act, s, step).value, rest)
  {
    assert ([step] + rest)[1..] == rest;
  }

  lemma {:induction false} ExecAppend(act: Scoring.Activation, s: State, run: seq<Step>, more: seq<Step>)
    requires Exec(act, s, run).Some?
    ensures Exec(act, s, run + more) == Exec(act, Exec(act, s, run).value, more)
    decreases |run|
  {
    if run == [] {
      assert run + more == more;
    } else {
      assert (run + more)[1..] == run[1..] + more;
      ExecAppend(act, Next(act, s, run[0]).value, run[1..], more);
    }
  }

  // ----- one late reading ---------------------------------------------------------------

  predicate CanScore(act: Scoring.Activation, m: Model, x: Row) {
    Scoring.ScoreSample(act, m.bundle, x).Some?
  }

  // A request that holds the snapshot of another champion, and has not yet looked for
  // a shadow; its model and the shadow can score its reading.
  predicate Stale(act: Scoring.Activation, live: Model, shadow: Model, p: Scorer) {
    && Earlier(live)(p) == 1
    && (p.Snapped? ==> CanScore(act, p.model, p.x))
    && CanScore(act, shadow, p.x)
  }

  // Request i is such a one, for the shadow of tracker k.
  predicate Late(act: Scoring.Activation, s: State, k: nat, i: nat) {
    i < |s.scorers| && k < |s.trackers| && Stale(act, s.live, s.trackers[k].shadow, s.scorers[i])
  }

  function ScoreOf(act: Scoring.Activation, p: Scorer): Scoring.Score
    requires p.Scored? || (p.Snapped? && CanScore(act, p.model, p.x))
  {
    if p.Scored? then p.score else Scoring.ScoreSample(act, p.model.bundle, p.x).value
  }

  // Tracker k is installed and belongs to the live champion.
  predicate Installed(s: State, k: nat) {
    s.shadow == Some(k) && k < |s.trackers| && s.trackers[k].reigning == s.live
  }

  // What request i then brings to tracker k.
  function Brings(act: Scoring.Activation, s: State, i: nat, k: nat): Observation
    requires Late(act, s, k, i)
  {
    var p := s.scorers[i];
    Observation(p.x, p.model, ScoreOf(act, p), Scoring.ScoreSample(act, s.trackers[k].shadow.bundle, p.x).value)
  }

  // The state once request i has brought its reading to tracker k.
  function Reported(act: Scoring.Activation, s: State, i: nat, k: nat): State
    requires Late(act, s, k, i)
  {
    var p := s.scorers[i];
    var t := s.trackers[k];
    s.(scorers := s.scorers[i := Answering(p.x, ScoreOf(act, p))],
       drift := if p.Snapped? then s.drift.(readings := s.drift.readings + [p.x]) else s.drift,
       trackers := s.trackers[k := t.(seen := t.seen + [Brings(act, s, i, k)])])
  }

  lemma ScoredReports(act: Scoring.Activation, s: State, i: nat, k: nat)
    requires Installed(s, k) && Late(act, s, k, i) && s.scorers[i].Scored?
    ensures Exec(act, s, [TakeShadow(i), ShadowScore(i)]) == Some(Reported(act, s, i, k))
  {
    var Scored(x, m, score) := s.scorers[i];
    var t := s.(scorers := s.scorers[i := HasShadow(x, m, score, k)]);
    assert t.scorers[i := Answering(x, score)] == s.scorers[i := Answering(x, score)];
    assert Next(act, t, ShadowScore(i)) == Some(Reported(act, s, i, k));
    First(act, t, ShadowScore(i), []);
    assert [ShadowScore(i)] + [] == [ShadowScore(i)];
    First(act, s, TakeShadow(i), [ShadowScore(i)]);
    assert [TakeShadow(i)] + [ShadowScore(i)] == [TakeShadow(i), ShadowScore(i)];
  }

  lemma SnappedReports(act: Scoring.Activation, s: State, i: nat, k: nat)
    requires Installed(s, k) && Late(act, s, k, i) && s.scorers[i].Snapped?
    ensures Exec(act, s, [Score(i)] + [TakeShadow(i), ShadowScore(i)]) == Some(Reported(act, s, i, k))
  {
    var t := AfterScore(act, s, i, k);
    ScoredReports(act, t, i, k);
    SameReport(act, s, i, k);
    First(act, s, Score(i), [TakeShadow(i), ShadowScore(i)]);
  }

  function AfterScore(act: Scoring.Activation, s: State, i: nat, k: nat): State
    requires Late(act, s, k, i) && s.scorers[i].Snapped?
  {
    var Snapped(x, m) := s.scorers[i];
    s.(scorers := s.scorers[i := Scored(x, m, ScoreOf(act, s.scorers[i]))],
       drift := s.drift.(readings := s.drift.readings + [x]))
  }

  lemma SameReport(act: Scoring.Activation, s: State, i: nat, k: nat)
    requires Late(act, s, k, i) && s.scorers[i].Snapped?
    ensures Reported(act, AfterScore(act, s, i, k), i, k) == Reported(act, s, i, k)
  {
    var p := Answering(s.scorers[i].x, ScoreOf(act, s.scorers[i]));
    assert AfterScore(act, s, i, k).scorers[i := p] == s.scorers[i := p];
  }

  lemma ForeignMore(t: Tracker, o: Observation)
    requires o.model != t.reigning
    ensures Foreign(t.(seen := t.seen + [o])) == Foreign(t) + 1
  {
    TotalSnoc(IsForeign(t.reigning), t.seen, o);
  }

  // From any state with an installed tracker, any request that still holds a snapshot of
  // another champion can bring the tracker one more foreign reading.
  lemma LateReading(act: Scoring.Activation, s: State, i: nat, k: nat) returns (run: seq<Step>)
    requires Installed(s, k) && Late(act, s, k, i)
    ensures Exec(act, s, run) == Some(Reported(act, s, i, k))
    ensures Foreign(Reported(act, s, i, k).trackers[k]) == Foreign(s.trackers[k]) + 1
  {
    ForeignMore(s.trackers[k], Brings(act, s, i, k));
    if s.scorers[i].Scored? {
      run := [TakeShadow(i), ShadowScore(i)];
      ScoredReports(act, s, i, k);
    } else {
      run := [Score(i)] + [TakeShadow(i), ShadowScore(i)];
      SnappedReports(act, s, i, k);
    }
  }

  // ----- all of them ----------------------------------------------------------------------

  function StaleCount(act: Scoring.Activation, live: Model, shadow: Model): Scorer -> nat {
    (p: Scorer) => if Stale(act, live, shadow, p) then 1 else 0
  }

  // The requests from j on bring all the foreign readings they can.
  lemma {:induction false} AllReport(act: Scoring.Activation, s: State, j: nat, k: nat)
    returns (run: seq<Step>)
    requires j <= |s.scorers| && Installed(s, k)
    ensures Exec(act, s, run).Some?
    ensures var t := Exec(act, s, run).value;
            && Installed(t, k) && t.lock == s.lock && t.live == s.live && t.trackers[k].shadow == s.trackers[k].shadow
            && Foreign(t.trackers[k]) == Foreign(s.trackers[k]) + Total(StaleCount(act, s.live, s.trackers[k].shadow), s.scorers[j..])
    decreases |s.scorers| - j
  {
    if j == |s.scorers| {
      run := [];
    } else {
      assert s.scorers[j..][1..] == s.scorers[j + 1..];
      if Late(act, s, k, j) {
        run := LateReading(act, s, j, k);
        var t := Reported(act, s, j, k);
        assert t.scorers[j + 1..] == s.scorers[j + 1..];
        var rest := AllReport(act, t, j + 1, k);
        ExecAppend(act, s, run, rest);
        run := run + rest;
      } else {
        run := AllReport(act, s, j + 1, k);
      }
    }
  }

  // What installing a tracker leaves: nobody has seen it yet.
  predicate JustInstalled(s: State, k: nat) {
    && Installed(s, k) && s.trackers[k].seen == [] && s.trackers[k].errors == 0
    && s.trackers[k].champion == s.live.version
    && s.trackers[k].earlier == Total(Earlier(s.live), s.scorers)
    && s.trackers[k].inFlight == Total(Busy(), s.scorers)
    && forall i :: 0 <= i < |s.scorers| && s.scorers[i].HasShadow? ==> s.scorers[i].tracker != k
  }

  // A shadow load that succeeds, or a reload while there is a shadow.
  predicate Installs(s: State, step: Step) {
    || (step.InstallShadow? && step.found.Some?)
    || (step.SwapTracker? && s.shadow.Some? && s.shadow.value < |s.trackers|)
  }

  lemma InstallsFresh(act: Scoring.Activation, s: State, step: Step)
    requires TrackersKnown(s) && Next(act, s, step).Some? && Installs(s, step)
    ensures var t := Next(act, s, step).value; JustInstalled(t, |s.trackers|) && t.lock.Free?
  {
  }

  // Whoever holds an earlier champion can score its reading, and so can the shadow.
  predicate StaleCanScore(act: Scoring.Activation, s: State, k: nat) {
    forall i :: 0 <= i < |s.scorers| && Earlier(s.live)(s.scorers[i]) == 1 ==> Late(act, s, k, i)
  }

  lemma {:induction false} StaleIsEarlier(act: Scoring.Activation, live: Model, shadow: Model, ps: seq<Scorer>)
    requires forall i :: 0 <= i < |ps| && Earlier(live)(ps[i]) == 1 ==> Stale(act, live, shadow, ps[i])
    ensures Total(StaleCount(act, live, shadow), ps) == Total(Earlier(live), ps)
  {
    if ps != [] {
      assert forall i :: 0 <= i < |ps[1..]| ==> ps[1..][i] == ps[i + 1];
      StaleIsEarlier(act, live, shadow, ps[1..]);
      assert Earlier(live)(ps[0]) == StaleCount(act, live, shadow)(ps[0]);
    }
  }

  // The bound is attained: from every state in which a tracker has just been installed,
  // some run makes it hold a foreign reading for each request that then held an earlier
  // champion and can score its reading.
  lemma BoundAttained(act: Scoring.Activation, s: State, k: nat) returns (run: seq<Step>)
    requires JustInstalled(s, k)
    ensures Exec(act, s, run).Some?
    ensures var t := Exec(act, s, run).value;
            && Installed(t, k) && t.lock == s.lock
            && Foreign(t.trackers[k]) == Total(StaleCount(act, s.live, s.trackers[k].shadow), s.scorers)
            && (StaleCanScore(act, s, k) ==> Foreign(t.trackers[k]) == s.trackers[k].earlier)
  {
    run := AllReport(act, s, 0, k);
    assert s.scorers[0..] == s.scorers;
    if StaleCanScore(act, s, k) {
      StaleIsEarlier(act, s.live, s.trackers[k].shadow, s.scorers);
    }
  }

  // ----- exactly when evidence is per champion ----------------------------------------------

  // Such a request can still bring a foreign reading to tracker k.
  predicate Taints(act: Scoring.Activation, live: Model, k: nat, shadow: Model, p: Scorer) {
    Stale(act, live, shadow, p)
    || (p.HasShadow? && p.tracker == k && p.model != live && CanScore(act, shadow, p.x))
  }

  // As long as it is the installed one, tracker k is clean and stays clean.
  predicate Untainted(act: Scoring.Activation, s: State, k: nat) {
    && k < |s.trackers|
    && (s.shadow == Some(k) && !MidSwap(s) ==>
          && s.trackers[k].reigning == s.live && Foreign(s.trackers[k]) == 0
          && forall i :: 0 <= i < |s.scorers| ==> !Taints(act, s.live, k, s.trackers[k].shadow, s.scorers[i]))
  }

  lemma ComparedUntainted(act: Scoring.Activation, s: State, i: nat, k: nat)
    requires Untainted(act, s, k) && ScoreStep(act, s, ShadowScore(i)).Some?
    ensures Untainted(act, ScoreStep(act, s, ShadowScore(i)).value, k)
  {
    var p := s.scorers[i];
    ComparedForeign(act, s.trackers[p.tracker], p.x, p.model, p.score);
    assert s.shadow == Some(k) && !MidSwap(s) ==> !Taints(act, s.live, k, s.trackers[k].shadow, p);
  }

  lemma ScoreUntainted(act: Scoring.Activation, s: State, step: Step, k: nat)
    requires Untainted(act, s, k) && ScoreStep(act, s, step).Some? && !step.ShadowScore?
    ensures Untainted(act, ScoreStep(act, s, step).value, k)
  {
  }

  lemma LockedUntainted(act: Scoring.Activation, s: State, step: Step, k: nat)
    requires Inv(s) && Untainted(act, s, k)
    ensures ReloadStep(s, step).Some? ==> Untainted(act, ReloadStep(s, step).value, k)
    ensures ShadowStep(s, step).Some? ==> Untainted(act, ShadowStep(s, step).value, k)
  {
  }

  lemma {:induction false} RunUntainted(act: Scoring.Activation, s: State, run: seq<Step>, k: nat)
    requires Inv(s) && Untainted(act, s, k) && Exec(act, s, run).Some?
    ensures Untainted(act, Exec(act, s, run).value, k)
    decreases |run|
  {
    if run != [] {
      StepKeeps(act, s, run[0]);
      if ReloadStep(s, run[0]).Some? || ShadowStep(s, run[0]).Some? {
        LockedUntainted(act, s, run[0], k);
      } else if run[0].ShadowScore? {
        ComparedUntainted(act, s, run[0].i, k);
      } else {
        ScoreUntainted(act, s, run[0], k);
      }
      RunUntainted(act, Next(act, s, run[0]).value, run[1..], k);
    }
  }

  // After every run, as long as it is the installed one and the lock is free, the
  // tracker holds readings of its own champion only.
  ghost predicate PerChampion(act: Scoring.Activation, s: State, k: nat) {
    forall run :: Pure(act, s, k, run)
  }

  ghost predicate Pure(act: Scoring.Activation, s: State, k: nat, run: seq<Step>) {
    var t := Exec(act, s, run);
    t.Some? && t.value.shadow == Some(k) && k < |t.value.trackers| && t.value.lock.Free? ==>
      Foreign(t.value.trackers[k]) == 0
  }

  lemma FreshUntainted(act: Scoring.Activation, s: State, k: nat)
    requires JustInstalled(s, k)
    requires forall i :: 0 <= i < |s.scorers| ==> !Late(act, s, k, i)
    ensures Untainted(act, s, k)
  {
    forall i | 0 <= i < |s.scorers|
      ensures !Taints(act, s.live, k, s.trackers[k].shadow, s.scorers[i])
    {
      assert !Late(act, s, k, i);
    }
  }

  lemma NoneStale(act: Scoring.Activation, s: State, k: nat, run: seq<Step>)
    requires Inv(s) && JustInstalled(s, k)
    requires forall i :: 0 <= i < |s.scorers| ==> !Late(act, s, k, i)
    ensures Pure(act, s, k, run)
  {
    FreshUntainted(act, s, k);
    if Exec(act, s, run).Some? {
      RunUntainted(act, s, run, k);
    }
  }

  // The evidence of a fresh tracker is per champion, whatever happens next, if and only
  // if no request in flight then held an earlier champion that can score its reading.
  lemma PerChampionIff(act: Scoring.Activation, s: State, k: nat)
    requires Inv(s) && JustInstalled(s, k) && s.lock.Free?
    ensures PerChampion(act, s, k) <==> forall i :: 0 <= i < |s.scorers| ==> !Late(act, s, k, i)
  {
    if i :| 0 <= i < |s.scorers| && Late(act, s, k, i) {
      var run := LateReading(act, s, i, k);
      assert !Pure(act, s, k, run);
    } else {
      forall run
        ensures Pure(act, s, k, run)
      {
        NoneStale(act, s, k, run);
      }
    }
  }

  // The same for a tracker installed by a reload or a shadow load at the end of any run:
  // its evidence is per champion exactly when, at that moment, no /score request between
  // its two snapshots held an earlier champion that can score its reading.
  lemma InstalledPerChampionIff(act: Scoring.Activation, m: Model, run: seq<Step>, step: Step)
    requires Exec(act, Boot(m), run).Some? && Next(act, Exec(act, Boot(m), run).value, step).Some?
    requires Installs(Exec(act, Boot(m), run).value, step)
    ensures var s := Exec(act, Boot(m), run).value;
            var t := Next(act, s, step).value;
            PerChampion(act, t, |s.trackers|)
            <==> forall i :: 0 <= i < |t.scorers| ==> !Late(act, t, |s.trackers|, i)
  {
    var s := Exec(act, Boot(m), run).value;
    RunKeeps(act, Boot(m), run);
    StepKeeps(act, s, step);
    InstallsFresh(act, s, step);
    PerChampionIff(act, Next(act, s, step).value, |s.trackers|);
  }

  // ----- from boot ------------------------------------------------------------------------

  // A shadow loaded while nothing else runs.
  lemma LoadsShadow(act: Scoring.Activation, s: State, m: Model, rest: seq<Step>)
    requires s.lock.Free? && s.shadows == []
    ensures Exec(act, s, [AskShadow(true)] + ([LockShadow(0)] + ([InstallShadow(0, Some(m))] + rest)))
            == Exec(act, Install(s, m).(shadows := [Replied(true)]), rest)
  {
    var s2 := s.(shadows := [LockedLoad], lock := ByShadow(0));
    assert s2.shadows[0 := Replied(true)] == [Replied(true)];
    assert NewTracker(s2, m) == NewTracker(s, m);
    First(act, s2, InstallShadow(0, Some(m)), rest);
    AsksForShadow(act, s, [InstallShadow(0, Some(m))] + rest);
  }

  lemma AsksForShadow(act: Scoring.Activation, s: State, rest: seq<Step>)
    requires s.lock.Free? && s.shadows == []
    ensures Exec(act, s, [AskShadow(true)] + ([LockShadow(0)] + rest))
            == Exec(act, s.(shadows := [LockedLoad], lock := ByShadow(0)), rest)
  {
    var s1 := s.(shadows := [AskedLoad]);
    assert s.shadows + [AskedLoad] == s1.shadows && s1.shadows[0 := LockedLoad] == [LockedLoad];
    First(act, s1, LockShadow(0), rest);
    First(act, s, AskShadow(true), [LockShadow(0)] + rest);
  }

  function WithLive(s: State, m: Model): State {
    s.(live := m, drift := Drift(m.bundle.mean, m.bundle.scale, []))
  }

  // The second half of a reload that goes through: model, drift window, tracker.
  lemma Swaps(act: Scoring.Activation, s: State, m: Model, rest: seq<Step>) returns (run: seq<Step>)
    requires s.lock == ByReload(0) && s.reloads == [Loaded(m)] && s.shadow.Some? && s.shadow.value < |s.trackers|
    ensures Exec(act, s, run)
            == Exec(act, Install(WithLive(s, m), s.trackers[s.shadow.value].shadow)
                         .(reloads := [Done(Reloaded(s.live.version, m.version))], lock := Free), rest)
  {
    var s4 := s.(reloads := [Swapped(s.live, m)], live := m);
    var s5 := WithLive(s, m).(reloads := [Reset(s.live, m)]);
    SwapSteps(act, s, m, s4, s5);
    SwapsTracker(act, s5, s.live, m);
    First(act, s5, SwapTracker(0), rest);
    run := [SwapTracker(0)] + rest;
    First(act, s4, ResetDrift(0), run);
    run := [ResetDrift(0)] + run;
    First(act, s, SwapLive(0), run);
    run := [SwapLive(0)] + run;
  }

  lemma SwapSteps(act: Scoring.Activation, s: State, m: Model, s4: State, s5: State)
    requires s.reloads == [Loaded(m)]
    requires s4 == s.(reloads := [Swapped(s.live, m)], live := m)
    requires s5 == WithLive(s, m).(reloads := [Reset(s.live, m)])
    ensures Next(act, s, SwapLive(0)) == Some(s4) && Next(act, s4, ResetDrift(0)) == Some(s5)
  {
    assert s.reloads[0 := Swapped(s.live, m)] == s4.reloads && s4.reloads[0 := Reset(s.live, m)] == s5.reloads;
  }

  lemma SwapsTracker(act: Scoring.Activation, s: State, was: Model, m: Model)
    requires s.reloads == [Reset(was, m)] && s.shadow.Some? && s.shadow.value < |s.trackers|
    ensures Next(act, s, SwapTracker(0))
            == Some(Install(s, s.trackers[s.shadow.value].shadow)
                    .(reloads := [Done(Reloaded(was.version, m.version))], lock := Free))
  {
    assert s.reloads[0 := Done(Reloaded(was.version, m.version))] == [Done(Reloaded(was.version, m.version))];
  }

  lemma Reloads(act: Scoring.Activation, s: State, m: Model, rest: seq<Step>) returns (run: seq<Step>)
    requires s.lock.Free? && s.reloads == [] && s.shadow.Some? && s.shadow.value < |s.trackers|
    ensures Exec(act, s, run)
            == Exec(act, Install(WithLive(s, m), s.trackers[s.shadow.value].shadow)
                         .(reloads := [Done(Reloaded(s.live.version, m.version))], lock := Free), rest)
  {
    var s3 := s.(reloads := [Loaded(m)], lock := ByReload(0));
    var t, t3 := WithLive(s, m), WithLive(s3, m);
    var shadow := s.trackers[s.shadow.value].shadow;
    assert NewTracker(t3, shadow) == NewTracker(t, shadow);
    run := Swaps(act, s3, m, rest);
    run := ReloadBegins(act, s, m, run);
  }

  // The first half: a request that has the lock and the new model.
  lemma ReloadBegins(act: Scoring.Activation, s: State, m: Model, rest: seq<Step>) returns (run: seq<Step>)
    requires s.lock.Free? && s.reloads == []
    ensures Exec(act, s, run) == Exec(act, s.(reloads := [Loaded(m)], lock := ByReload(0)), rest)
  {
    var s1 := s.(reloads := [Asked]);
    var s2 := s.(reloads := [Locked], lock := ByReload(0));
    BeginSteps(act, s, m, s1, s2);
    First(act, s2, Load(0, Some(m)), rest);
    run := [Load(0, Some(m))] + rest;
    First(act, s1, LockReload(0), run);
    run := [LockReload(0)] + run;
    First(act, s, AskReload, run);
    run := [AskReload] + run;
  }

  lemma BeginSteps(act: Scoring.Activation, s: State, m: Model, s1: State, s2: State)
    requires s.lock.Free? && s.reloads == []
    requires s1 == s.(reloads := [Asked]) && s2 == s.(reloads := [Locked], lock := ByReload(0))
    ensures Next(act, s, AskReload) == Some(s1) && Next(act, s1, LockReload(0)) == Some(s2)
    ensures Next(act, s2, Load(0, Some(m))) == Some(s.(reloads := [Loaded(m)], lock := ByReload(0)))
  {
    assert s.reloads + [Asked] == s1.reloads && s1.reloads[0 := Locked] == s2.reloads;
    assert s2.reloads[0 := Loaded(m)] == [Loaded(m)];
  }

  ghost predicate Mixed(end: Option<State>, champion: string) {
    && end.Some? && end.value.lock.Free? && end.value.shadow == Some(1) && |end.value.trackers| == 2
    && end.value.trackers[1].champion == champion && Foreign(end.value.trackers[1]) == 1
  }

  // The reload happens while the request holds the old model.
  lemma ReloadUnderRequest(act: Scoring.Activation, c: State, old': Model, new': Model, x: Row)
    returns (run: seq<Step>)
    requires old' != new' && CanScore(act, old', x)
    requires c.lock.Free? && c.reloads == [] && c.scorers == [Snapped(x, old')]
    requires c.shadow == Some(0) && |c.trackers| == 1 && CanScore(act, c.trackers[0].shadow, x)
    ensures Mixed(Exec(act, c, run), new'.version)
  {
    var d := Install(WithLive(c, new'), c.trackers[0].shadow)
             .(reloads := [Done(Reloaded(c.live.version, new'.version))], lock := Free);
    run := LateReading(act, d, 0, 1);
    run := Reloads(act, c, new', run);
  }

  // A request that took its model snapshot before a reload to another model and its
  // shadow snapshot after it: the fresh tracker, which names the new champion, holds a reading that
  // the old one scored.
  lemma MixedEvidence(act: Scoring.Activation, old': Model, new': Model, shadow: Model, x: Row)
    returns (run: seq<Step>)
    requires old' != new' && CanScore(act, old', x) && CanScore(act, shadow, x)
    ensures Mixed(Exec(act, Boot(old'), run), new'.version)
  {
    var a := Install(Boot(old'), shadow).(shadows := [Replied(true)]);
    run := ReloadUnderRequest(act, a.(scorers := [Snapped(x, old')]), old', new', x);
    ArrivesAndSnaps(act, a, x, run);
    run := [Arrive(x)] + ([Snap(0)] + run);
    LoadsShadow(act, Boot(old'), shadow, run);
    run := [AskShadow(true)] + ([LockShadow(0)] + ([InstallShadow(0, Some(shadow))] + run));
  }

  lemma ArrivesAndSnaps(act: Scoring.Activation, s: State, x: Row, rest: seq<Step>)
    requires s.scorers == []
    ensures Exec(act, s, [Arrive(x)] + ([Snap(0)] + rest))
            == Exec(act, s.(scorers := [Snapped(x, s.live)]), rest)
  {
    var t := s.(scorers := [Arrived(x)]);
    assert [] + [Arrived(x)] == [Arrived(x)] && t.scorers[0 := Snapped(x, s.live)] == [Snapped(x, s.live)];
    First(act, t, Snap(0), rest);
    First(act, s, Arrive(x), [Snap(0)] + rest);
  }
}
