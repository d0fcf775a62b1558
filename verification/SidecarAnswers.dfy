// What /score answers, whatever is reloaded meanwhile (inference/server.py).
module SidecarAnswers {
  import opened Wrappers
  import opened Tensors
  import opened Sidecar
  import Rounding
  import Scoring

  // Request i has arrived and is not yet answered.
  predicate InProgress(s: State, i: nat) {
    i < |s.scorers| && !s.scorers[i].Answered?
  }

  // The models that were live at some moment between the arrival of request i and its
  // answer.
  ghost function LiveDuring(act: Scoring.Activation, s: State, run: seq<Step>, i: nat): set<Model>
    decreases |run|
  {
    (if InProgress(s, i) then {s.live} else {})
    + if run == [] || Next(act, s, run[0]).None? then {} else LiveDuring(act, Next(act, s, run[0]).value, run[1..], i)
  }

  // Some model of the set gives this answer to the reading; None is an error.
  ghost predicate GivenBy(act: Scoring.Activation, models: set<Model>, x: Row, answer: Option<Scoring.Score>) {
    exists m :: m in models && Answers(act, m, x, answer)
  }

  predicate Answers(act: Scoring.Activation, m: Model, x: Row, answer: Option<Scoring.Score>) {
    var verdict := Scoring.ScoreSample(act, m.bundle, x);
    answer == if verdict.None? then None else Some(Response(verdict.value))
  }

  ghost predicate Justified(act: Scoring.Activation, p: Scorer, models: set<Model>) {
    match p
    case Arrived(_) => true
    case Snapped(_, m) => m in models
    case Scored(x, m, score) => m in models && Scoring.ScoreSample(act, m.bundle, x) == Some(score)
    case HasShadow(x, m, score, _) => m in models && Scoring.ScoreSample(act, m.bundle, x) == Some(score)
    case Answering(x, score) => GivenBy(act, models, x, Some(Response(score)))
    case Answered(x, answer) => GivenBy(act, models, x, answer)
  }

  lemma MoreModels(act: Scoring.Activation, p: Scorer, models: set<Model>, more: set<Model>)
    requires Justified(act, p, models) && models <= more
    ensures Justified(act, p, more)
  {
  }

  lemma MovedJustified(act: Scoring.Activation, s: State, step: Step, i: nat, models: set<Model>)
    requires ScoreStep(act, s, step).Some? && i < |s.scorers| && Justified(act, s.scorers[i], models)
    requires !s.scorers[i].Answered? ==> s.live in models
    ensures i < |ScoreStep(act, s, step).value.scorers|
    ensures Justified(act, ScoreStep(act, s, step).value.scorers[i], models)
  {
    match step
    case Score(j) =>
      if j == i {
        assert Answers(act, s.scorers[i].model, s.scorers[i].x, None)
               || Scoring.ScoreSample(act, s.scorers[i].model.bundle, s.scorers[i].x).Some?;
      }
    case TakeShadow(j) =>
      if j == i {
        assert Answers(act, s.scorers[i].model, s.scorers[i].x, Some(Response(s.scorers[i].score)));
      }
    case ShadowScore(j) =>
      if j == i {
        assert Answers(act, s.scorers[i].model, s.scorers[i].x, Some(Response(s.scorers[i].score)));
      }
    case _ =>
  }

  lemma StepJustified(act: Scoring.Activation, s: State, step: Step, i: nat, models: set<Model>)
    requires Next(act, s, step).Some?
    requires i < |s.scorers| ==> Justified(act, s.scorers[i], models) && (InProgress(s, i) ==> s.live in models)
    ensures var t := Next(act, s, step).value; i < |t.scorers| ==> Justified(act, t.scorers[i], models)
  {
    if ReloadStep(s, step).Some? || ShadowStep(s, step).Some? {
      assert Next(act, s, step).value.scorers == s.scorers;
    } else if i < |s.scorers| {
      MovedJustified(act, s, step, i, models);
    }
  }

  lemma {:induction false} RunJustified(act: Scoring.Activation, s: State, run: seq<Step>, i: nat, models: set<Model>)
    requires Exec(act, s, run).Some?
    requires i < |s.scorers| ==> Justified(act, s.scorers[i], models)
    ensures var t := Exec(act, s, run).value;
            i < |t.scorers| ==> Justified(act, t.scorers[i], models + LiveDuring(act, s, run, i))
    decreases |run|
  {
    var more := models + if InProgress(s, i) then {s.live} else {};
    if i < |s.scorers| {
      MoreModels(act, s.scorers[i], models, more);
    }
    if run == [] {
      assert models + LiveDuring(act, s, run, i) == more;
    } else {
      var t := Next(act, s, run[0]).value;
      StepJustified(act, s, run[0], i, more);
      RunJustified(act, t, run[1..], i, more);
      assert more + LiveDuring(act, t, run[1..], i) == models + LiveDuring(act, s, run, i);
    }
  }

  // Every answer is the verdict, on the reading of its own request, of one bundle that
  // was live as a whole at some moment between the request's arrival and its answer,
  // never a mixture and never an older one; it is an error only if such a bundle cannot
  // score the reading.
  lemma AnswersAreVerdicts(act: Scoring.Activation, m: Model, run: seq<Step>, i: nat)
    requires Exec(act, Boot(m), run).Some?
    requires var s := Exec(act, Boot(m), run).value; i < |s.scorers| && s.scorers[i].Answered?
    ensures var p := Exec(act, Boot(m), run).value.scorers[i];
            GivenBy(act, LiveDuring(act, Boot(m), run, i), p.x, p.response)
  {
    RunJustified(act, Boot(m), run, i, {});
    assert {} + LiveDuring(act, Boot(m), run, i) == LiveDuring(act, Boot(m), run, i);
  }

  // The response keeps the verdict and its reason; its score is the exact one to within
  // half a unit of the fifth decimal.
  lemma ResponseWithin(score: Scoring.Score) returns (k: int)
    ensures var r := Response(score);
            && r.anomaly == score.anomaly && r.reason == score.reason
            && r.score * 100000.0 == k as real
            && score.score * 100000.0 - 0.5 <= r.score * 100000.0 <= score.score * 100000.0 + 0.5
  {
    Rounding.RoundedWithin(score.score, 100000);
    k := Rounding.Units(score.score, 100000);
  }
}
