// What concurrent requests to the sidecar keep.
module SidecarProofs {
  import opened Tallies
  import opened Tensors
  import opened Sidecar
  import Scoring

  // ----- one lock holder ------------------------------------------------------------

  predicate InsideReload(r: Reload) {
    r.Locked? || r.Loaded? || r.Swapped? || r.Reset?
  }

  predicate InsideShadow(r: ShadowRequest) {
    r.LockedLoad? || r.LockedUnload?
  }

  predicate Exclusive(s: State) {
    && (forall j :: 0 <= j < |s.reloads| && InsideReload(s.reloads[j]) ==> s.lock == ByReload(j))
    && (forall j :: 0 <= j < |s.shadows| && InsideShadow(s.shadows[j]) ==> s.lock == ByShadow(j))
  }

  // A reload has changed the live model and not yet the tracker.
  predicate MidSwap(s: State) {
    s.lock.ByReload? && s.lock.j < |s.reloads| && (s.reloads[s.lock.j].Swapped? || s.reloads[s.lock.j].Reset?)
  }

  // ----- evidence ---------------------------------------------------------------------

  function IsForeign(live: Model): Observation -> nat {
    (o: Observation) => if o.model == live then 0 else 1
  }

  // Readings in a tracker that an earlier or later champion scored.
  function Foreign(t: Tracker): nat {
    Total(IsForeign(t.reigning), t.seen)
  }

  // Requests that can still bring a foreign reading to tracker k, live model `live`.
  function Threat(live: Model, k: nat): Scorer -> nat {
    (p: Scorer) =>
      if (p.Snapped? || p.Scored?) && p.model != live then 1
      else if p.HasShadow? && p.tracker == k && p.model != live then 1
      else 0
  }

  predicate TrackersKnown(s: State) {
    && (s.shadow.Some? ==> s.shadow.value < |s.trackers|)
    && forall i :: 0 <= i < |s.scorers| && s.scorers[i].HasShadow? ==> s.scorers[i].tracker < |s.trackers|
  }

  predicate InstalledOk(s: State) {
    s.shadow.Some? && s.shadow.value < |s.trackers| && !MidSwap(s) ==>
      var k := s.shadow.value;
      var t := s.trackers[k];
      && t.champion == s.live.version && t.reigning == s.live
      && Foreign(t) + Total(Threat(s.live, k), s.scorers) <= t.earlier <= t.inFlight
  }

  predicate Inv(s: State) {
    Exclusive(s) && TrackersKnown(s) && InstalledOk(s)
  }

  lemma ThreatChanges(s: State, i: nat, p: Scorer, k: nat)
    requires i < |s.scorers|
    ensures Total(Threat(s.live, k), s.scorers[i := p]) + Threat(s.live, k)(s.scorers[i])
            == Total(Threat(s.live, k), s.scorers) + Threat(s.live, k)(p)
  {
    TotalUpdate(Threat(s.live, k), s.scorers, i, p);
  }

  // A tracker that nobody has seen yet is threatened only by requests that hold an
  // earlier champion and have their shadow snapshot still to come.
  lemma {:induction false} NewThreat(live: Model, k: nat, ps: seq<Scorer>)
    requires forall i :: 0 <= i < |ps| && ps[i].HasShadow? ==> ps[i].tracker < k
    ensures Total(Threat(live, k), ps) == Total(Earlier(live), ps)
  {
    if ps != [] {
      assert !(ps[0].HasShadow? && ps[0].tracker == k);
      NewThreat(live, k, ps[1..]);
    }
  }

  lemma EarlierIsBusy(live: Model, ps: seq<Scorer>)
    ensures Total(Earlier(live), ps) <= Total(Busy(), ps)
  {
    TotalBelow(Earlier(live), Busy(), ps);
  }

  lemma InstallKeeps(s: State, m: Model)
    requires TrackersKnown(s)
    ensures var t := Install(s, m);
            && TrackersKnown(t)
            && t.trackers[t.shadow.value].champion == s.live.version && t.trackers[t.shadow.value].reigning == s.live
            && Foreign(t.trackers[t.shadow.value]) + Total(Threat(s.live, t.shadow.value), s.scorers)
               <= t.trackers[t.shadow.value].earlier <= t.trackers[t.shadow.value].inFlight
  {
    NewThreat(s.live, |s.trackers|, s.scorers);
    EarlierIsBusy(s.live, s.scorers);
  }

  // ----- steps --------------------------------------------------------------------------

  lemma ScoreExclusive(act: Scoring.Activation, s: State, step: Step)
    requires Exclusive(s) && TrackersKnown(s) && ScoreStep(act, s, step).Some?
    ensures var t := ScoreStep(act, s, step).value;
            Exclusive(t) && TrackersKnown(t) && (MidSwap(t) <==> MidSwap(s))
  {
  }

  // A comparison adds a foreign reading exactly if another model than the reigning one
  // scored it and the shadow could.
  lemma ComparedForeign(act: Scoring.Activation, t: Tracker, x: Row, m: Model, score: Scoring.Score)
    ensures var u := Compared(act, t, x, m, score);
            && u == t.(seen := u.seen, errors := u.errors)
            && Foreign(u) == Foreign(t)
               + if m != t.reigning && Scoring.ScoreSample(act, t.shadow.bundle, x).Some? then 1 else 0
  {
    var r := Scoring.ScoreSample(act, t.shadow.bundle, x);
    if r.Some? {
      TotalSnoc(IsForeign(t.reigning), t.seen, Observation(x, m, score, r.value));
    }
  }

  lemma ScoreEvidence(act: Scoring.Activation, s: State, step: Step)
    requires TrackersKnown(s) && InstalledOk(s) && ScoreStep(act, s, step).Some?
    ensures InstalledOk(ScoreStep(act, s, step).value)
  {
    if s.shadow.Some? && !MidSwap(s) {
      var k := s.shadow.value;
      var t := ScoreStep(act, s, step).value;
      if step.Arrive? {
        TotalSnoc(Threat(s.live, k), s.scorers, Arrived(step.x));
      } else {
        ThreatChanges(s, step.i, t.scorers[step.i], k);
        if step.ShadowScore? && s.scorers[step.i].tracker == k {
          var HasShadow(x, m, score, _) := s.scorers[step.i];
          ComparedForeign(act, s.trackers[k], x, m, score);
        }
      }
    }
  }

  lemma ReloadKeeps(s: State, step: Step)
    requires Inv(s) && ReloadStep(s, step).Some?
    ensures Inv(ReloadStep(s, step).value)
  {
    if step.SwapTracker? && s.shadow.Some? {
      InstallKeeps(s, s.trackers[s.shadow.value].shadow);
    }
  }

  lemma ShadowKeeps(s: State, step: Step)
    requires Inv(s) && ShadowStep(s, step).Some?
    ensures Inv(ShadowStep(s, step).value)
  {
    if step.InstallShadow? && step.found.Some? {
      InstallKeeps(s, step.found.value);
    }
  }

  lemma StepKeeps(act: Scoring.Activation, s: State, step: Step)
    requires Inv(s) && Next(act, s, step).Some?
    ensures Inv(Next(act, s, step).value)
  {
    if ReloadStep(s, step).Some? {
      ReloadKeeps(s, step);
    } else if ShadowStep(s, step).Some? {
      ShadowKeeps(s, step);
    } else {
      ScoreExclusive(act, s, step);
      ScoreEvidence(act, s, step);
    }
  }

  lemma {:induction false} RunKeeps(act: Scoring.Activation, s: State, run: seq<Step>)
    requires Inv(s) && Exec(act, s, run).Some?
    ensures Inv(Exec(act, s, run).value)
    decreases |run|
  {
    if run != [] {
      StepKeeps(act, s, run[0]);
      RunKeeps(act, Next(act, s, run[0]).value, run[1..]);
    }
  }

  // Bounded mixing. Whenever the state lock is free, an installed tracker names the
  // live champion, and it holds no more readings of another champion than there were
  // /score requests holding an earlier one when it was installed.
  lemma BoundedMixing(act: Scoring.Activation, m: Model, run: seq<Step>)
    requires Exec(act, Boot(m), run).Some?
    requires var s := Exec(act, Boot(m), run).value; s.lock.Free? && s.shadow.Some?
    ensures var s := Exec(act, Boot(m), run).value;
            && s.shadow.value < |s.trackers|
            && var t := s.trackers[s.shadow.value];
            && t.champion == s.live.version && t.reigning == s.live
            && Foreign(t) <= t.earlier <= t.inFlight
  {
    RunKeeps(act, Boot(m), run);
  }
}
