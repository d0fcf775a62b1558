// Which model the sidecar shadows, and what a tracker holds (inference/server.py).
module SidecarShadow {
  import opened Wrappers
  import opened Tallies
  import opened Sidecar
  import opened SidecarProofs
  import Scoring

  // ----- the shadow of a run --------------------------------------------------------------

  // A shadow load that succeeds, or an unload.
  predicate Replaces(step: Step) {
    step.UnloadShadow? || (step.InstallShadow? && step.found.Some?)
  }

  // Step k of the run loaded the model, and nothing was loaded or unloaded since.
  predicate LastLoad(run: seq<Step>, k: nat, m: Model) {
    && k < |run| && run[k].InstallShadow? && run[k].found == Some(m)
    && forall i :: k < i < |run| ==> !Replaces(run[i])
  }

  ghost predicate LastLoaded(run: seq<Step>, m: Model) {
    exists k :: LastLoad(run, k, m)
  }

  function Shadowed(s: State): Option<Model> {
    if s.shadow.Some? && s.shadow.value < |s.trackers| then Some(s.trackers[s.shadow.value].shadow) else None
  }

  function AfterStep(current: Option<Model>, step: Step): Option<Model> {
    match step
    case UnloadShadow(_) => None
    case InstallShadow(_, found) => if found.Some? then found else current
    case _ => current
  }

  function AfterRun(current: Option<Model>, run: seq<Step>): Option<Model>
    decreases |run|
  {
    if run == [] then current else AfterRun(AfterStep(current, run[0]), run[1..])
  }

  lemma ScoringShadows(act: Scoring.Activation, s: State, step: Step)
    requires ScoreStep(act, s, step).Some?
    ensures Shadowed(ScoreStep(act, s, step).value) == Shadowed(s)
  {
  }

  lemma StepShadows(act: Scoring.Activation, s: State, step: Step)
    requires Next(act, s, step).Some?
    ensures Shadowed(Next(act, s, step).value) == AfterStep(Shadowed(s), step)
  {
    if ScoreStep(act, s, step).Some? {
      ScoringShadows(act, s, step);
    }
  }

  lemma {:induction false} RunShadows(act: Scoring.Activation, s: State, run: seq<Step>)
    requires Exec(act, s, run).Some?
    ensures Shadowed(Exec(act, s, run).value) == AfterRun(Shadowed(s), run)
    decreases |run|
  {
    if run != [] {
      StepShadows(act, s, run[0]);
      RunShadows(act, Next(act, s, run[0]).value, run[1..]);
    }
  }

  predicate NoneReplaces(run: seq<Step>) {
    forall i :: 0 <= i < |run| ==> !Replaces(run[i])
  }

  lemma LastLoadTail(run: seq<Step>, m: Model)
    requires run != []
    ensures LastLoaded(run, m)
            <==> LastLoaded(run[1..], m)
                 || (run[0].InstallShadow? && run[0].found == Some(m) && NoneReplaces(run[1..]))
  {
    if k: nat :| LastLoad(run, k, m) {
      if k > 0 {
        assert forall i :: k - 1 < i < |run[1..]| ==> run[1..][i] == run[i + 1];
        assert LastLoad(run[1..], k - 1, m);
      }
    }
    if k: nat :| LastLoad(run[1..], k, m) {
      assert forall i :: k + 1 < i < |run| ==> run[i] == run[1..][i - 1];
      assert LastLoad(run, k + 1, m);
    }
    if run[0].InstallShadow? && run[0].found == Some(m) && NoneReplaces(run[1..]) {
      assert forall i :: 0 < i < |run| ==> run[i] == run[1..][i - 1];
      assert LastLoad(run, 0, m);
    }
  }

  lemma NoneReplacesTail(run: seq<Step>)
    requires run != []
    ensures NoneReplaces(run) <==> !Replaces(run[0]) && NoneReplaces(run[1..])
  {
    assert forall i :: 0 < i < |run| ==> run[i] == run[1..][i - 1];
  }

  lemma {:induction false} AfterRunIs(current: Option<Model>, run: seq<Step>, m: Model)
    ensures AfterRun(current, run) == Some(m)
            <==> LastLoaded(run, m) || (current == Some(m) && NoneReplaces(run))
    decreases |run|
  {
    if run != [] {
      AfterRunIs(AfterStep(current, run[0]), run[1..], m);
      LastLoadTail(run, m);
      NoneReplacesTail(run);
    }
  }

  // After every run the sidecar shadows the model of the last shadow load that
  // succeeded; it shadows none exactly when there was no such load, or an unload since.
  lemma ShadowIsLastLoad(act: Scoring.Activation, m: Model, run: seq<Step>, shadow: Model)
    requires Exec(act, Boot(m), run).Some?
    ensures var s := Exec(act, Boot(m), run).value;
            && (s.shadow.Some? && s.shadow.value < |s.trackers| && s.trackers[s.shadow.value].shadow == shadow
                <==> LastLoaded(run, shadow))
            && (s.shadow.None? <==> forall n :: !LastLoaded(run, n))
  {
    RunShadows(act, Boot(m), run);
    RunKeeps(act, Boot(m), run);
    var end := AfterRun(None, run);
    forall n
      ensures end == Some(n) <==> LastLoaded(run, n)
    {
      AfterRunIs(None, run, n);
    }
    if end.Some? {
      assert LastLoaded(run, end.value);
    }
  }

  // An unload is answered with a report exactly when a loaded shadow was still there.
  lemma UnloadAnswers(act: Scoring.Activation, m: Model, run: seq<Step>, j: nat, t: State)
    requires Exec(act, Boot(m), run).Some? && Next(act, Exec(act, Boot(m), run).value, UnloadShadow(j)) == Some(t)
    ensures j < |t.shadows| && t.shadow.None? && t.lock.Free?
    ensures t.shadows[j] == Replied(exists n :: LastLoaded(run, n))
  {
    var s := Exec(act, Boot(m), run).value;
    ShadowIsLastLoad(act, m, run, m);
  }

  // The /score requests without an answer yet.
  function Unanswered(ps: seq<Scorer>): seq<Scorer> {
    if ps == [] then []
    else if ps[0].Answered? then Unanswered(ps[1..])
    else [ps[0]] + Unanswered(ps[1..])
  }

  lemma {:induction false} UnansweredIs(ps: seq<Scorer>)
    ensures |Unanswered(ps)| == Total(Busy(), ps)
  {
    if ps != [] {
      UnansweredIs(ps[1..]);
    }
  }

  // A reload during a shadow leaves every tracker as it was and installs one more: the
  // same shadow, the new champion, no evidence. Without a shadow it installs nothing.
  lemma ReloadKeepsShadow(act: Scoring.Activation, s: State, t: State, j: nat)
    requires TrackersKnown(s) && Next(act, s, SwapTracker(j)) == Some(t)
    ensures s.shadow.None? ==> t.shadow.None? && t.trackers == s.trackers
    ensures s.shadow.Some? ==>
              && t.shadow == Some(|s.trackers|) && |t.trackers| == |s.trackers| + 1
              && t.trackers[..|s.trackers|] == s.trackers
              && var k := t.trackers[|s.trackers|];
              && k.shadow == s.trackers[s.shadow.value].shadow
              && k.champion == t.live.version && k.reigning == t.live
              && k.seen == [] && k.errors == 0
              && k.inFlight == |Unanswered(t.scorers)| && k.earlier == Total(Earlier(t.live), t.scorers)
  {
    UnansweredIs(s.scorers);
  }

  // ----- evidence ---------------------------------------------------------------------------

  predicate BothVerdicts(act: Scoring.Activation, shadow: Model, o: Observation) {
    && Scoring.ScoreSample(act, o.model.bundle, o.x) == Some(o.champion)
    && Scoring.ScoreSample(act, shadow.bundle, o.x) == Some(o.shadow)
  }

  predicate GenuineTracker(act: Scoring.Activation, t: Tracker) {
    forall i :: 0 <= i < |t.seen| ==> BothVerdicts(act, t.shadow, t.seen[i])
  }

  predicate GenuineScorer(act: Scoring.Activation, p: Scorer) {
    p.Scored? || p.HasShadow? ==> Scoring.ScoreSample(act, p.model.bundle, p.x) == Some(p.score)
  }

  predicate Genuine(act: Scoring.Activation, s: State) {
    && (forall k :: 0 <= k < |s.trackers| ==> GenuineTracker(act, s.trackers[k]))
    && forall i :: 0 <= i < |s.scorers| ==> GenuineScorer(act, s.scorers[i])
  }

  function Evidence(): Tracker -> nat {
    (t: Tracker) => |t.seen| + t.errors
  }

  function IsComparison(): Step -> nat {
    (step: Step) => if step.ShadowScore? then 1 else 0
  }

  lemma ComparedGenuine(act: Scoring.Activation, t: Tracker, p: Scorer)
    requires p.HasShadow? && GenuineTracker(act, t) && GenuineScorer(act, p)
    ensures var u := Compared(act, t, p.x, p.model, p.score);
            GenuineTracker(act, u) && Evidence()(u) == Evidence()(t) + 1
  {
  }

  lemma ComparisonGenuine(act: Scoring.Activation, s: State, i: nat, t: State)
    requires Genuine(act, s) && ScoreStep(act, s, ShadowScore(i)) == Some(t)
    ensures Genuine(act, t) && Total(Evidence(), t.trackers) == Total(Evidence(), s.trackers) + 1
  {
    var p := s.scorers[i];
    var u := Compared(act, s.trackers[p.tracker], p.x, p.model, p.score);
    ComparedGenuine(act, s.trackers[p.tracker], p);
    TotalUpdate(Evidence(), s.trackers, p.tracker, u);
  }

  lemma ScoringGenuine(act: Scoring.Activation, s: State, step: Step, t: State)
    requires Genuine(act, s) && !step.ShadowScore? && ScoreStep(act, s, step) == Some(t)
    ensures Genuine(act, t) && t.trackers == s.trackers
  {
  }

  lemma InstallGenuine(act: Scoring.Activation, s: State, m: Model)
    requires Genuine(act, s)
    ensures Genuine(act, Install(s, m))
    ensures Total(Evidence(), Install(s, m).trackers) == Total(Evidence(), s.trackers)
  {
    TotalSnoc(Evidence(), s.trackers, NewTracker(s, m));
  }

  lemma StepGenuine(act: Scoring.Activation, s: State, step: Step, t: State)
    requires Genuine(act, s) && Next(act, s, step) == Some(t)
    ensures Genuine(act, t) && Total(Evidence(), t.trackers) == Total(Evidence(), s.trackers) + IsComparison()(step)
  {
    match step
    case SwapTracker(_) =>
      if s.shadow.Some? && s.shadow.value < |s.trackers| {
        InstallGenuine(act, s, s.trackers[s.shadow.value].shadow);
      }
    case InstallShadow(_, found) =>
      if found.Some? {
        InstallGenuine(act, s, found.value);
      }
    case ShadowScore(i) => ComparisonGenuine(act, s, i, t);
    case Arrive(_) => ScoringGenuine(act, s, step, t);
    case Snap(_) => ScoringGenuine(act, s, step, t);
    case Score(_) => ScoringGenuine(act, s, step, t);
    case TakeShadow(_) => ScoringGenuine(act, s, step, t);
    case Answer(_) => ScoringGenuine(act, s, step, t);
    case _ =>
  }

  lemma {:induction false} RunGenuine(act: Scoring.Activation, s: State, run: seq<Step>)
    requires Genuine(act, s) && Exec(act, s, run).Some?
    ensures var t := Exec(act, s, run).value;
            Genuine(act, t) && Total(Evidence(), t.trackers) == Total(Evidence(), s.trackers) + Total(IsComparison(), run)
    decreases |run|
  {
    if run != [] {
      var t := Next(act, s, run[0]).value;
      StepGenuine(act, s, run[0], t);
      RunGenuine(act, t, run[1..]);
    }
  }

  // In every tracker of every run, installed or replaced, each comparison pairs the
  // verdict of the champion its request held with the verdict of the tracker's own
  // shadow, on the same reading; and every reading compared is counted once, in one
  // tracker, as a comparison or as an error.
  lemma EvidenceGenuine(act: Scoring.Activation, m: Model, run: seq<Step>)
    requires Exec(act, Boot(m), run).Some?
    ensures var s := Exec(act, Boot(m), run).value;
            && (forall k, i :: 0 <= k < |s.trackers| && 0 <= i < |s.trackers[k].seen| ==>
                  BothVerdicts(act, s.trackers[k].shadow, s.trackers[k].seen[i]))
            && Total(Evidence(), s.trackers) == Total(IsComparison(), run)
  {
    RunGenuine(act, Boot(m), run);
    var s := Exec(act, Boot(m), run).value;
    assert forall k :: 0 <= k < |s.trackers| ==> GenuineTracker(act, s.trackers[k]);
  }
}
