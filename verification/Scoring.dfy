// The scorer (ml/scoring.py), its shape check (inference/server.py) and its batch form
// (ml/benchmark_rotating.py), for autoencoder bundles, over exact reals. The activation
// is a parameter: the code offers tanh only, and nothing here depends on which
// function it is.
module Scoring {
  import opened Wrappers
  import opened Tensors

  datatype Layer = Layer(w: Matrix, b: Row)

  datatype Bundle = Bundle(
    features: seq<string>, mean: Row, scale: Row, weights: seq<Layer>, threshold: real, guard: real)

  type Activation = real -> real

  // ----- forward pass -----------------------------------------------------------

  function LayerOut(act: Activation, l: Layer, h: Matrix, last: bool): Option<Matrix> {
    var mm := MatMul(h, l.w);
    if mm.None? then None
    else
      var lin := WithRow(Plus(), mm.value, l.b);
      if lin.None? || last then lin else Some(Map(act, lin.value))
  }

  // No activation after the last layer.
  function Forward(act: Activation, ls: seq<Layer>, h: Matrix): Option<Matrix> {
    if ls == [] then Some(h)
    else
      var out := LayerOut(act, ls[0], h, |ls| == 1);
      if out.None? then None else Forward(act, ls[1..], out.value)
  }

  // The loop of ae_reconstruct.
  method AeReconstruct(act: Activation, weights: seq<Layer>, z: Matrix) returns (r: Option<Matrix>)
    ensures r == Forward(act, weights, z)
  {
    var h := z;
    var i := 0;
    while i < |weights|
      invariant 0 <= i <= |weights|
      invariant Forward(act, weights, z) == Forward(act, weights[i..], h)
    {
      var mm := MatMul(h, weights[i].w);
      if mm.None? {
        return None;
      }
      var lin := WithRow(Plus(), mm.value, weights[i].b);
      if lin.None? {
        return None;
      }
      h := lin.value;
      if i < |weights| - 1 {
        h := Map(act, h);
      }
      assert weights[i..][1..] == weights[i + 1..];
      i := i + 1;
    }
    return Some(h);
  }

  // Readings in scaled feature space.
  function Scaled(b: Bundle, x: Matrix): Option<Matrix> {
    var centered := WithRow(Minus(), x, b.mean);
    if centered.None? then None else WithRow(Over(), centered.value, b.scale)
  }

  function Square(): real -> real {
    (x: real) => x * x
  }

  // Mean squared residual per row.
  function ResidualErrors(z: Matrix, recon: Matrix): Option<Row> {
    var residual := Pairwise(Minus(), z, recon);
    if residual.None? then None else RowMeans(Map(Square(), residual.value))
  }

  function ReconstructionErrors(act: Activation, b: Bundle, x: Matrix): Option<Row> {
    var z := Scaled(b, x);
    if z.None? then None
    else
      var recon := Forward(act, b.weights, z.value);
      if recon.None? then None else ResidualErrors(z.value, recon.value)
  }

  // ----- verdicts -----------------------------------------------------------------

  function Abs(x: real): real {
    if x < 0.0 then -x else x
  }

  function MaxOf(x: Row): (m: real)
    requires x != []
    ensures m in x && forall i :: 0 <= i < |x| ==> x[i] <= m
  {
    if |x| == 1 then x[0]
    else
      var m := MaxOf(x[1..]);
      assert forall i :: 1 <= i < |x| ==> x[i] == x[1..][i - 1];
      if x[0] > m then x[0] else m
  }

  datatype Reason = Model | Limit | ModelAndLimit

  datatype Score = Score(score: real, anomaly: bool, reason: Option<Reason>)

  function Verdict(score: real, modelHit: bool, limitHit: bool): Score {
    Score(score, modelHit || limitHit,
          if modelHit && limitHit then Some(ModelAndLimit)
          else if modelHit then Some(Model) else if limitHit then Some(Limit) else None)
  }

  function ScoreSample(act: Activation, b: Bundle, x: Row): Option<Score> {
    var errors := ReconstructionErrors(act, b, Single(x));
    var z := Scaled(b, Single(x));
    if errors.None? || z.None? || z.value.cols == 0 || |errors.value| != 1 then None
    else
      Some(Verdict(errors.value[0], errors.value[0] > b.threshold, MaxOf(RowMap(Abs, z.value.at[0])) > b.guard))
  }

  // The vectorised rule: model verdicts and hybrid verdicts of a batch.
  function ScoreBatch(act: Activation, b: Bundle, x: Matrix): Option<(seq<bool>, seq<bool>)> {
    var errors := ReconstructionErrors(act, b, x);
    var z := Scaled(b, x);
    if errors.None? || z.None? || z.value.cols == 0 || |errors.value| != z.value.rows then None
    else
      var n := z.value.rows;
      Some((seq(n, i requires 0 <= i < n => errors.value[i] > b.threshold),
            seq(n, i requires 0 <= i < n =>
                  errors.value[i] > b.threshold || MaxOf(RowMap(Abs, z.value.at[i])) > b.guard)))
  }

  // ----- shape check --------------------------------------------------------------

  // Each layer takes what the one before it gives.
  predicate ChainOk(ls: seq<Layer>, dim: nat, out: nat) {
    if ls == [] then dim == out
    else ls[0].w.rows == dim && ls[0].w.cols == |ls[0].b| && ChainOk(ls[1..], ls[0].w.cols, out)
  }

  predicate ShapeOk(b: Bundle) {
    && b.features != []
    && |b.mean| == |b.features| && |b.scale| == |b.features|
    && ChainOk(b.weights, |b.features|, |b.features|)
  }

  // The shapes of a layer do not fit what comes before it, or its own bias.
  predicate Breaks(ls: seq<Layer>, dim: nat, k: nat)
    requires k < |ls|
  {
    ls[k].w.rows != (if k == 0 then dim else ls[k - 1].w.cols) || ls[k].w.cols != |ls[k].b|
  }

  datatype Number = Finite(r: real) | NotFinite

  const DEFAULT_Z_GUARD := 6.0
  const ACTIVATIONS := ["tanh"]

  // What joblib.load gives: a field is None when the dictionary lacks it; the feature
  // list also when it is not a list. `pipeline` says whether the pipeline of an
  // isolation forest bundle gives the nominal reading a finite score.
  datatype Candidate =
    | NotADict
    | Dict(features: Option<seq<string>>, kind: Option<string>, mean: Option<Row>, scale: Option<Row>,
           weights: Option<seq<Layer>>, threshold: Option<Number>, activation: Option<string>,
           guard: Option<real>, pipeline: Option<bool>)

  predicate Complete(c: Candidate) {
    && c.Dict? && c.features.Some? && c.mean.Some? && c.scale.Some? && c.weights.Some?
    && c.threshold.Some? && c.activation.Some?
  }

  // The autoencoder bundle in a dictionary.
  function AsBundle(c: Candidate): Bundle
    requires Complete(c) && c.threshold.value.Finite?
  {
    Bundle(c.features.value, c.mean.value, c.scale.value, c.weights.value, c.threshold.value.r,
           if c.guard.Some? then c.guard.value else DEFAULT_Z_GUARD)
  }

  function KindOf(c: Candidate): string
    requires c.Dict?
  {
    if c.kind.Some? then c.kind.value else "iforest"
  }

  // May serve: an autoencoder with every key, a known activation, a finite threshold,
  // shapes that chain and no zero scale, or an isolation forest that scores.
  predicate Servable(c: Candidate) {
    && c.Dict? && c.features.Some? && c.features.value != []
    && (KindOf(c) == "autoencoder" || KindOf(c) == "iforest")
    && (KindOf(c) == "autoencoder" ==>
          && Complete(c) && c.activation.value in ACTIVATIONS && c.threshold.value.Finite?
          && ShapeOk(AsBundle(c)) && 0.0 !in c.scale.value)
    && (KindOf(c) == "iforest" ==> c.pipeline == Some(true))
  }

  predicate Featured(c: Candidate) {
    c.Dict? && c.features.Some? && c.features.value != []
  }

  // An autoencoder with every key.
  predicate Keyed(c: Candidate) {
    Featured(c) && c.kind == Some("autoencoder") && Complete(c)
  }

  predicate Activated(c: Candidate) {
    Keyed(c) && c.activation == Some("tanh")
  }

  // No layer breaks the chain, and it does not end where it began.
  predicate EndsElsewhere(ls: seq<Layer>, dim: nat) {
    (forall k :: 0 <= k < |ls| ==> !Breaks(ls, dim, k)) && ls != [] && ls[|ls| - 1].w.cols != dim
  }

  datatype Refusal =
    | NotADictionary | NoFeatures | MissingKey | UnknownActivation | ScalerShape | BrokenAt(layer: nat)
    | OutputDimension | ThresholdNotFinite | MissingPipeline | UnknownKind | NonFiniteScore

  // _validate_bundle. A zero scale makes the smoke score of an autoencoder infinite or
  // undefined, which is the only way it can fail to be finite over the reals.
  method ValidateBundle(c: Candidate) returns (r: Option<Refusal>)
    ensures r == None <==> Servable(c)
    // each refusal exactly where it is due
    ensures r == Some(NotADictionary) <==> c == NotADict
    ensures r == Some(NoFeatures) <==> c.Dict? && (c.features == None || c.features == Some([]))
    ensures r == Some(UnknownKind) <==> Featured(c) && c.kind !in {None, Some("iforest"), Some("autoencoder")}
    ensures r == Some(MissingPipeline) <==> Featured(c) && c.kind in {None, Some("iforest")} && c.pipeline == None
    ensures r == Some(MissingKey) <==>
              && Featured(c) && c.kind == Some("autoencoder")
              && (c.mean == None || c.scale == None || c.weights == None || c.threshold == None || c.activation == None)
    ensures r == Some(UnknownActivation) <==> Keyed(c) && c.activation != Some("tanh")
    ensures r == Some(ScalerShape) <==>
              Activated(c) && !(|c.mean.value| == |c.scale.value| == |c.features.value|)
    ensures r == Some(OutputDimension) <==>
              && Activated(c) && |c.mean.value| == |c.scale.value| == |c.features.value|
              && EndsElsewhere(c.weights.value, |c.features.value|)
    ensures r == Some(ThresholdNotFinite) <==>
              && Activated(c) && |c.mean.value| == |c.scale.value| == |c.features.value|
              && ChainOk(c.weights.value, |c.features.value|, |c.features.value|) && c.threshold == Some(NotFinite)
    ensures r.Some? && r.value.BrokenAt? ==>
              var k := r.value.layer;
              && Complete(c) && k < |c.weights.value| && Breaks(c.weights.value, |c.features.value|, k)
              && forall j :: 0 <= j < k ==> !Breaks(c.weights.value, |c.features.value|, j)
  {
    if c.NotADict? {
      return Some(NotADictionary);
    }
    if c.features.None? || c.features.value == [] {
      return Some(NoFeatures);
    }
    if KindOf(c) == "autoencoder" {
      if !Complete(c) {
        return Some(MissingKey);
      }
      if c.activation.value !in ACTIVATIONS {
        return Some(UnknownActivation);
      }
      r := CheckShapes(|c.features.value|, c.mean.value, c.scale.value, c.weights.value);
      if r.Some? {
        return;
      }
      if c.threshold.value.NotFinite? {
        return Some(ThresholdNotFinite);
      }
      return if 0.0 in c.scale.value then Some(NonFiniteScore) else None;
    }
    if KindOf(c) != "iforest" {
      return Some(UnknownKind);
    }
    if c.pipeline.None? {
      return Some(MissingPipeline);
    }
    return if c.pipeline.value then None else Some(NonFiniteScore);
  }

  // The scaler's shape and the weight chain.
  method CheckShapes(n: nat, mean: Row, scale: Row, weights: seq<Layer>) returns (r: Option<Refusal>)
    ensures r == None <==> |mean| == n && |scale| == n && ChainOk(weights, n, n)
    ensures r.Some? ==> r.value.ScalerShape? || r.value.OutputDimension? || r.value.BrokenAt?
    ensures r == Some(ScalerShape) <==> |mean| != n || |scale| != n
    ensures r == Some(OutputDimension) <==> |mean| == n && |scale| == n && EndsElsewhere(weights, n)
    ensures r.Some? && r.value.BrokenAt? ==>
              var k := r.value.layer;
              k < |weights| && Breaks(weights, n, k) && forall j :: 0 <= j < k ==> !Breaks(weights, n, j)
  {
    if |mean| != n || |scale| != n {
      return Some(ScalerShape);
    }
    var dim: nat := n;
    var i := 0;
    while i < |weights|
      invariant 0 <= i <= |weights|
      invariant ChainOk(weights, n, n) == ChainOk(weights[i..], dim, n)
      invariant dim == if i == 0 then n else weights[i - 1].w.cols
      invariant forall j :: 0 <= j < i ==> !Breaks(weights, n, j)
    {
      var w, bias := weights[i].w, weights[i].b;
      if w.rows != dim || w.cols != |bias| {
        assert Breaks(weights, n, i);
        return Some(BrokenAt(i));
      }
      assert weights[i..][1..] == weights[i + 1..];
      dim := w.cols;
      i := i + 1;
    }
    return if dim != n then Some(OutputDimension) else None;
  }

  // ----- shape soundness -------------------------------------------------------------

  lemma {:induction false} ForwardShape(act: Activation, ls: seq<Layer>, h: Matrix, out: nat)
    requires ChainOk(ls, h.cols, out)
    ensures Forward(act, ls, h).Some?
    ensures var r := Forward(act, ls, h).value; r.rows == h.rows && r.cols == out
  {
    if ls != [] {
      ForwardShape(act, ls[1..], LayerOut(act, ls[0], h, |ls| == 1).value, out);
    }
  }

  // A bundle that passes the check scores every batch of readings: no dimension
  // mismatch, and one score for each.
  lemma ShapeSound(act: Activation, b: Bundle, x: Matrix)
    requires ShapeOk(b) && x.cols == |b.features|
    ensures Scaled(b, x).Some? && Scaled(b, x).value.rows == x.rows && Scaled(b, x).value.cols == x.cols
    ensures Forward(act, b.weights, Scaled(b, x).value).Some?
    ensures var r := Forward(act, b.weights, Scaled(b, x).value).value; r.rows == x.rows && r.cols == x.cols
    ensures ReconstructionErrors(act, b, x).Some? && |ReconstructionErrors(act, b, x).value| == x.rows
    ensures ScoreBatch(act, b, x).Some?
  {
    ForwardShape(act, b.weights, Scaled(b, x).value, x.cols);
  }

  lemma SampleScored(act: Activation, b: Bundle, x: Row)
    requires ShapeOk(b) && |x| == |b.features|
    ensures ScoreSample(act, b, x).Some?
  {
    ShapeSound(act, b, Single(x));
  }

  // ----- one row at a time --------------------------------------------------------------

  function Pick(m: Matrix, k: nat): Matrix
    requires k < m.rows
  {
    Single(m.at[k])
  }

  lemma PickMatMul(a: Matrix, b: Matrix, k: nat)
    requires k < a.rows
    ensures MatMul(Pick(a, k), b) == if MatMul(a, b).None? then None else Some(Pick(MatMul(a, b).value, k))
  {
    if a.cols == b.rows {
      assert MatMul(Pick(a, k), b).value.at == [Through(a.at[k], b)];
    }
  }

  lemma PickWithRow(op: Binary, a: Matrix, v: Row, k: nat)
    requires k < a.rows
    ensures WithRow(op, Pick(a, k), v)
            == if WithRow(op, a, v).None? then None else Some(Pick(WithRow(op, a, v).value, k))
  {
    if WithRow(op, a, v).Some? {
      assert WithRow(op, Pick(a, k), v).value.at == [RowOp(op, a.at[k], v)];
    }
  }

  lemma PickPairwise(op: Binary, a: Matrix, b: Matrix, k: nat)
    requires k < a.rows && a.rows == b.rows
    ensures Pairwise(op, Pick(a, k), Pick(b, k))
            == if Pairwise(op, a, b).None? then None else Some(Pick(Pairwise(op, a, b).value, k))
  {
    if Pairwise(op, a, b).Some? {
      assert Pairwise(op, Pick(a, k), Pick(b, k)).value.at == [RowOp(op, a.at[k], b.at[k])];
    }
  }

  lemma PickMap(f: real -> real, a: Matrix, k: nat)
    requires k < a.rows
    ensures Map(f, Pick(a, k)) == Pick(Map(f, a), k)
  {
  }

  lemma PickLayer(act: Activation, l: Layer, h: Matrix, last: bool, k: nat)
    requires k < h.rows
    ensures var r := LayerOut(act, l, h, last);
            && (r.Some? ==> r.value.rows == h.rows)
            && LayerOut(act, l, Pick(h, k), last) == if r.None? then None else Some(Pick(r.value, k))
  {
    PickMatMul(h, l.w, k);
    var mm := MatMul(h, l.w);
    if mm.Some? {
      PickWithRow(Plus(), mm.value, l.b, k);
      var lin := WithRow(Plus(), mm.value, l.b);
      if lin.Some? {
        PickMap(act, lin.value, k);
      }
    }
  }

  lemma {:induction false} PickForward(act: Activation, ls: seq<Layer>, h: Matrix, k: nat)
    requires k < h.rows
    ensures var r := Forward(act, ls, h);
            && (r.Some? ==> r.value.rows == h.rows)
            && Forward(act, ls, Pick(h, k)) == if r.None? then None else Some(Pick(r.value, k))
  {
    if ls != [] {
      var out := LayerOut(act, ls[0], h, |ls| == 1);
      PickLayer(act, ls[0], h, |ls| == 1, k);
      if out.Some? {
        PickForward(act, ls[1..], out.value, k);
      }
    }
  }

  lemma PickScaled(b: Bundle, x: Matrix, k: nat)
    requires k < x.rows
    ensures var r := Scaled(b, x);
            && (r.Some? ==> r.value.rows == x.rows)
            && Scaled(b, Pick(x, k)) == if r.None? then None else Some(Pick(r.value, k))
  {
    PickWithRow(Minus(), x, b.mean, k);
    var c := WithRow(Minus(), x, b.mean);
    if c.Some? {
      PickWithRow(Over(), c.value, b.scale, k);
    }
  }

  lemma PickResidual(z: Matrix, recon: Matrix, k: nat)
    requires k < z.rows && z.rows == recon.rows
    ensures var r := ResidualErrors(z, recon);
            && (r.Some? ==> |r.value| == z.rows)
            && ResidualErrors(Pick(z, k), Pick(recon, k)) == if r.None? then None else Some([r.value[k]])
  {
    PickPairwise(Minus(), z, recon, k);
    var d := Pairwise(Minus(), z, recon);
    if d.Some? {
      PickMap(Square(), d.value, k);
      var sq := Map(Square(), d.value);
      if sq.cols > 0 {
        assert RowMeans(Pick(sq, k)).value == [Mean(sq.at[k])];
      }
    }
  }

  // The score of a reading does not depend on the batch it comes in.
  lemma BatchErrors(act: Activation, b: Bundle, x: Matrix, k: nat)
    requires k < x.rows
    ensures var r := ReconstructionErrors(act, b, x);
            && (r.Some? ==> |r.value| == x.rows)
            && ReconstructionErrors(act, b, Pick(x, k)) == if r.None? then None else Some([r.value[k]])
  {
    PickScaled(b, x, k);
    var z := Scaled(b, x);
    if z.Some? {
      PickForward(act, b.weights, z.value, k);
      var recon := Forward(act, b.weights, z.value);
      if recon.Some? {
        PickResidual(z.value, recon.value, k);
      }
    }
  }

  // The vectorised rule gives on each row the verdict score_sample gives on that row
  // alone; for any bundle that scores the batch at all.
  lemma BatchAgreement(act: Activation, b: Bundle, x: Matrix, k: nat)
    requires k < x.rows && ScoreBatch(act, b, x).Some?
    ensures var (model, hybrid) := ScoreBatch(act, b, x).value;
            && |model| == |hybrid| == x.rows
            && ScoreSample(act, b, x.at[k]).Some?
            && var s := ScoreSample(act, b, x.at[k]).value;
            && hybrid[k] == s.anomaly
            && model[k] == (s.reason == Some(Model) || s.reason == Some(ModelAndLimit))
  {
    BatchErrors(act, b, x, k);
    PickScaled(b, x, k);
  }
}
