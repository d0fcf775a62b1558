// Shadowing cannot be seen from outside (inference/server.py): whatever shadows are
// loaded, unloaded or failing, the answers to /score and /reload, the live model and
// the drift window are the same.
module SidecarIsolation {
  import opened Wrappers
  import opened Sidecar
  import opened SidecarProofs
  import Scoring

  // Steps that concern the shadow only: shadow requests, and the part of /score between
  // the drift window and the answer.
  predicate Hidden(step: Step) {
    step.AskShadow? || step.LockShadow? || step.InstallShadow? || step.UnloadShadow?
    || step.TakeShadow? || step.ShadowScore?
  }

  function Visible(run: seq<Step>): seq<Step> {
    if run == [] then []
    else if Hidden(run[0]) then Visible(run[1..])
    else [run[0]] + Visible(run[1..])
  }

  // A scored request, for someone who cannot see what it does with the shadow.
  function Plain(p: Scorer): Scorer {
    if p.Scored? || p.HasShadow? then Answering(p.x, p.score) else p
  }

  function AllPlain(ps: seq<Scorer>): (r: seq<Scorer>)
    ensures |r| == |ps|
  {
    seq(|ps|, i requires 0 <= i < |ps| => Plain(ps[i]))
  }

  // The sidecar without its shadow.
  function Outside(s: State): State {
    s.(shadow := None, trackers := [], shadows := [], lock := if s.lock.ByShadow? then Free else s.lock,
       scorers := AllPlain(s.scorers))
  }

  lemma HiddenStep(act: Scoring.Activation, s: State, step: Step)
    requires Hidden(step) && Next(act, s, step).Some?
    requires Exclusive(s)
    ensures Outside(Next(act, s, step).value) == Outside(s)
  {
    assert AllPlain(Next(act, s, step).value.scorers) == AllPlain(s.scorers);
  }

  // A visible step does the same without the shadow.
  lemma VisibleStep(act: Scoring.Activation, s: State, step: Step)
    requires !Hidden(step) && Next(act, s, step).Some?
    ensures Next(act, Outside(s), step).Some?
    ensures Outside(Next(act, Outside(s), step).value) == Outside(Next(act, s, step).value)
  {
    match step
    case Arrive(_) => VisibleScoring(act, s, step);
    case Snap(_) => VisibleScoring(act, s, step);
    case Score(_) => VisibleScoring(act, s, step);
    case Answer(_) => VisibleScoring(act, s, step);
    case _ => VisibleReload(s, step);
  }

  lemma VisibleScoring(act: Scoring.Activation, s: State, step: Step)
    requires (step.Arrive? || step.Snap? || step.Score? || step.Answer?) && ScoreStep(act, s, step).Some?
    ensures ScoreStep(act, Outside(s), step).Some?
    ensures Outside(ScoreStep(act, Outside(s), step).value) == Outside(ScoreStep(act, s, step).value)
  {
    var t, u := ScoreStep(act, s, step).value, ScoreStep(act, Outside(s), step).value;
    assert AllPlain(u.scorers) == AllPlain(t.scorers);
  }

  lemma PlainTwice(ps: seq<Scorer>)
    ensures AllPlain(AllPlain(ps)) == AllPlain(ps)
  {
  }

  lemma VisibleReload(s: State, step: Step)
    requires ReloadStep(s, step).Some?
    ensures ReloadStep(Outside(s), step).Some?
    ensures Outside(ReloadStep(Outside(s), step).value) == Outside(ReloadStep(s, step).value)
  {
    PlainTwice(s.scorers);
  }

  // Two states that look the same from outside, two runs with the same visible steps:
  // the results look the same.
  lemma {:induction false} SameOutside(act: Scoring.Activation, s: State, t: State, run: seq<Step>, other: seq<Step>)
    requires Inv(s) && Inv(t) && Outside(s) == Outside(t)
    requires Visible(run) == Visible(other)
    requires Exec(act, s, run).Some? && Exec(act, t, other).Some?
    ensures Outside(Exec(act, s, run).value) == Outside(Exec(act, t, other).value)
    decreases |run| + |other|
  {
    if run != [] && Hidden(run[0]) {
      HiddenStep(act, s, run[0]);
      StepKeeps(act, s, run[0]);
      SameOutside(act, Next(act, s, run[0]).value, t, run[1..], other);
    } else if other != [] && Hidden(other[0]) {
      HiddenStep(act, t, other[0]);
      StepKeeps(act, t, other[0]);
      SameOutside(act, s, Next(act, t, other[0]).value, run, other[1..]);
    } else if run != [] {
      assert run[0] == Visible(run)[0] == Visible(other)[0] == other[0];
      assert Visible(run[1..]) == Visible(run)[1..] && Visible(other[1..]) == Visible(other)[1..];
      VisibleStep(act, s, run[0]);
      VisibleStep(act, t, run[0]);
      StepKeeps(act, s, run[0]);
      StepKeeps(act, t, run[0]);
      SameOutside(act, Next(act, s, run[0]).value, Next(act, t, run[0]).value, run[1..], other[1..]);
    }
  }

  // Non-interference: two runs with the same /score and /reload requests, scheduled the
  // same, give the same answers, the same live model and the same drift window, whatever
  // shadows come and go.
  lemma ShadowInvisible(act: Scoring.Activation, m: Model, run: seq<Step>, other: seq<Step>)
    requires Visible(run) == Visible(other)
    requires Exec(act, Boot(m), run).Some? && Exec(act, Boot(m), other).Some?
    ensures var s, t := Exec(act, Boot(m), run).value, Exec(act, Boot(m), other).value;
            && s.live == t.live && s.drift == t.drift && s.reloads == t.reloads
            && |s.scorers| == |t.scorers|
            && forall i :: 0 <= i < |s.scorers| ==>
                 && (s.scorers[i].Answered? <==> t.scorers[i].Answered?)
                 && (s.scorers[i].Answered? ==> s.scorers[i].response == t.scorers[i].response)
  {
    SameOutside(act, Boot(m), Boot(m), run, other);
    var s, t := Exec(act, Boot(m), run).value, Exec(act, Boot(m), other).value;
    assert Outside(s) == Outside(t);
    forall i | 0 <= i < |s.scorers| ensures Plain(s.scorers[i]) == Plain(t.scorers[i]) {
      assert AllPlain(s.scorers)[i] == AllPlain(t.scorers)[i];
    }
  }
}
