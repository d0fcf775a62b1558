// Building a bundle (ml/train.py): scaling learned from the training readings, and an
// alarm threshold calibrated on held-out healthy ones. Fitting the network and the
// square root are parameters.
module Calibration {
  import opened Wrappers
  import opened Tallies
  import opened Tensors
  import opened Sorting
  import opened Scoring

  const FP_BUDGET := 0.005

  // ----- np.quantile --------------------------------------------------------------------------

  function Itself(): Key<real> {
    (x: real) => x
  }

  function Lerp(a: real, b: real, g: real): real {
    a + g * (b - a)
  }

  // The value a fraction g of the way from one element to the next.
  function Interpolate(sorted: Row, lo: nat, g: real): real
    requires lo < |sorted|
  {
    if lo + 1 < |sorted| then Lerp(sorted[lo], sorted[lo + 1], g) else sorted[lo]
  }

  // Linear interpolation between the two sorted values around position q * (n - 1).
  function Quantile(x: Row, q: real): real
    requires x != [] && 0.0 <= q <= 1.0
  {
    Interpolate(Sorted(Itself(), x), Below(|x|, q), Position(|x|, q) - (Below(|x|, q) as real))
  }

  function Position(n: nat, q: real): real
    requires n > 0
  {
    q * ((n - 1) as real)
  }

  function Below(n: nat, q: real): (lo: nat)
    requires n > 0 && 0.0 <= q <= 1.0
    ensures lo < n && lo as real <= Position(n, q) < lo as real + 1.0
  {
    AtMostLast(n, q);
    Position(n, q).Floor
  }

  lemma AtMostLast(n: nat, q: real)
    requires n > 0 && 0.0 <= q <= 1.0
    ensures 0.0 <= Position(n, q) <= (n - 1) as real
  {
    var m := (n - 1) as real;
    assert (1.0 - q) * m >= 0.0;
  }

  // ----- build_bundle -------------------------------------------------------------------------

  type Function = real -> real

  function ColumnMean(m: Matrix, j: nat): real
    requires m.rows > 0 && j < m.cols
  {
    Mean(Column(m, j))
  }

  function Means(m: Matrix): (r: Row)
    requires m.rows > 0
    ensures |r| == m.cols
  {
    seq(m.cols, j requires 0 <= j < m.cols => ColumnMean(m, j))
  }

  function SquaredDeviations(x: Row, mean: real): Row {
    seq(|x|, i requires 0 <= i < |x| => (x[i] - mean) * (x[i] - mean))
  }

  function ColumnStd(sqrt: Function, m: Matrix, j: nat): real
    requires m.rows > 0 && j < m.cols
  {
    sqrt(Mean(SquaredDeviations(Column(m, j), ColumnMean(m, j))))
  }

  function Stds(sqrt: Function, m: Matrix): (r: Row)
    requires m.rows > 0
    ensures |r| == m.cols
  {
    seq(m.cols, j requires 0 <= j < m.cols => ColumnStd(sqrt, m, j))
  }

  type Fit = Matrix -> seq<Layer>

  function Uncalibrated(sqrt: Function, fit: Fit, xTrain: Matrix, features: seq<string>): Bundle
    requires xTrain.rows > 0
  {
    var mean, scale := Means(xTrain), Repaired(Stds(sqrt, xTrain));
    var scaler := Bundle(features, mean, scale, [], 0.0, DEFAULT_Z_GUARD);
    scaler.(weights := fit(Scaled(scaler, xTrain).value))
  }

  // None when a shape does not fit, or there is nothing to train or calibrate on.
  method BuildBundle(
    sqrt: Function, act: Activation, fit: Fit, xTrain: Matrix, xCal: Matrix, features: seq<string>)
    returns (r: Option<Bundle>)
    ensures r.Some? ==>
      && xTrain.rows > 0 && xCal.rows > 0
      && var errors := ReconstructionErrors(act, r.value, xCal);
      && errors.Some? && |errors.value| == xCal.rows
      && r.value == Uncalibrated(sqrt, fit, xTrain, features).(threshold := Quantile(errors.value, 1.0 - FP_BUDGET))
    // what calibration promises: no zero scale, and at most the budget of false alarms
    ensures r.Some? ==>
      && 0.0 !in r.value.scale
      && Flagged(ReconstructionErrors(act, r.value, xCal).value, r.value.threshold) <= Budget(xCal.rows, FP_BUDGET)
    ensures r.None? <==>
      || xTrain.rows == 0 || xCal.rows == 0
      || ReconstructionErrors(act, Uncalibrated(sqrt, fit, xTrain, features), xCal).None?
  {
    if xTrain.rows == 0 || xCal.rows == 0 {
      return None;
    }
    var bundle := Uncalibrated(sqrt, fit, xTrain, features);
    var errors := ReconstructionErrors(act, bundle, xCal);
    if errors.None? {
      return None;
    }
    BatchErrors(act, bundle, xCal, 0);
    bundle := bundle.(threshold := Quantile(errors.value, 1.0 - FP_BUDGET));
    QuantileFlags(errors.value, 1.0 - FP_BUDGET);
    return Some(bundle);
  }

  // ----- scaling ------------------------------------------------------------------------------

  // A feature that is constant in training is centred and left at its own scale.
  lemma ConstantFeatureCentred(sqrt: Function, fit: Fit, xTrain: Matrix, features: seq<string>, j: nat, c: real)
    requires xTrain.rows > 0 && j < xTrain.cols && sqrt(0.0) == 0.0
    requires forall i :: 0 <= i < xTrain.rows ==> xTrain.at[i][j] == c
    ensures var b := Uncalibrated(sqrt, fit, xTrain, features);
      b.mean[j] == c && b.scale[j] == 1.0
  {
    var column := Column(xTrain, j);
    ConstantMean(column, c);
    ConstantMean(SquaredDeviations(column, c), 0.0);
  }

  // ----- the false-alarm budget ---------------------------------------------------------------

  function Ceiling(x: real): int {
    -((-x).Floor)
  }

  // Readings that the strict comparison flags.
  function Flagged(errors: Row, threshold: real): nat {
    Total(Above(Itself(), threshold), errors)
  }

  // The number of calibration readings that may be flagged.
  function Budget(n: nat, share: real): int
    requires n > 0
  {
    Ceiling(share * ((n - 1) as real))
  }

  lemma BudgetIsRest(n: nat, q: real)
    requires n > 0 && 0.0 <= q <= 1.0
    ensures Budget(n, 1.0 - q) == n - 1 - Below(n, q)
  {
    var m := (n - 1) as real;
    assert -((1.0 - q) * m) == q * m - m;
    var p := q * m;
    assert (p - m).Floor == p.Floor - (n - 1);
  }

  lemma Interpolated(a: real, b: real, g: real)
    requires a <= b && 0.0 <= g < 1.0
    ensures a <= Lerp(a, b, g) <= b
    ensures Lerp(a, b, g) < b <==> a < b
  {
    var d, h := b - a, 1.0 - g;
    assert g * d >= 0.0 && h * d >= 0.0;
    assert g * d + h * d == d;
    if d > 0.0 {
      assert h * d > 0.0;
    }
  }

  lemma AboveAtLast(s: Row, k: nat, v: real)
    requires Ordered(Itself(), s) && k < |s|
    requires s[k] <= v
    ensures Flagged(s, v) <= |s| - 1 - k
    ensures (k + 1 < |s| ==> v < s[k + 1]) ==> Flagged(s, v) == |s| - 1 - k
    ensures k + 1 < |s| && s[k + 1] <= v ==> Flagged(s, v) < |s| - 1 - k
  {
    var f := Above(Itself(), v);
    SplitTally(f, s, k + 1);
    assert forall i :: 0 <= i < k ==> Itself()(s[i]) <= Itself()(s[k]);
    AllZeros(f, s[..k + 1]);
    AtMostAll(f, s[k + 1..]);
    if k + 1 < |s| {
      if v < s[k + 1] {
        assert forall i :: k + 1 < i < |s| ==> Itself()(s[k + 1]) <= Itself()(s[i]);
        AllOnes(f, s[k + 1..]);
      } else {
        SplitTally(f, s[k + 1..], 1);
        AllZeros(f, s[k + 1..][..1]);
        AtMostAll(f, s[k + 1..][1..]);
      }
    }
  }

  lemma {:induction false} AtMostAll(f: real -> nat, s: Row)
    requires forall x :: f(x) <= 1
    ensures Total(f, s) <= |s|
  {
    if s != [] {
      AtMostAll(f, s[1..]);
    }
  }

  lemma Between(sorted: Row, lo: nat, g: real)
    requires Ordered(Itself(), sorted) && lo < |sorted| && 0.0 <= g < 1.0
    ensures var v := Interpolate(sorted, lo, g);
      && sorted[lo] <= v
      && (lo + 1 < |sorted| ==> v <= sorted[lo + 1] && (v < sorted[lo + 1] <==> sorted[lo] < sorted[lo + 1]))
  {
    if lo + 1 < |sorted| {
      assert Itself()(sorted[lo]) <= Itself()(sorted[lo + 1]);
      Interpolated(sorted[lo], sorted[lo + 1], g);
    }
  }

  // A quantile lies between the two values around its position, below the upper one if
  // they differ.
  lemma QuantileBetween(x: Row, q: real)
    requires x != [] && 0.0 <= q <= 1.0
    ensures var sorted, lo, v := Sorted(Itself(), x), Below(|x|, q), Quantile(x, q);
      && sorted[lo] <= v
      && (lo + 1 < |x| ==> v <= sorted[lo + 1] && (v < sorted[lo + 1] <==> sorted[lo] < sorted[lo + 1]))
  {
    SortedOrdered(Itself(), x);
    Between(Sorted(Itself(), x), Below(|x|, q), Position(|x|, q) - (Below(|x|, q) as real));
  }

  // How many values lie above a quantile of theirs: no more than the budget, and exactly
  // that many if and only if the two values around its position differ (or it is the
  // largest of all).
  lemma QuantileFlags(x: Row, q: real)
    requires x != [] && 0.0 <= q <= 1.0
    ensures Flagged(x, Quantile(x, q)) <= Budget(|x|, 1.0 - q)
    ensures var sorted, lo := Sorted(Itself(), x), Below(|x|, q);
      Flagged(x, Quantile(x, q)) == Budget(|x|, 1.0 - q) <==> (lo + 1 < |x| ==> sorted[lo] < sorted[lo + 1])
  {
    var sorted, lo, v := Sorted(Itself(), x), Below(|x|, q), Quantile(x, q);
    BudgetIsRest(|x|, q);
    SortedOrdered(Itself(), x);
    SortedTallies(Itself(), x, Above(Itself(), v));
    QuantileBetween(x, q);
    AboveAtLast(sorted, lo, v);
  }

  predicate Distinct(x: Row) {
    forall i, j :: 0 <= i < j < |x| ==> x[i] != x[j]
  }

  lemma {:induction false} DistinctCounts(x: Row)
    requires Distinct(x)
    ensures forall v :: multiset(x)[v] <= 1
  {
    if x != [] {
      DistinctCounts(x[1..]);
      assert x == [x[0]] + x[1..];
      assert x[0] !in x[1..];
    }
  }

  lemma CountedTwice(s: Row, k: nat)
    requires k + 1 < |s| && s[k] == s[k + 1]
    ensures multiset(s)[s[k]] >= 2
  {
    assert s == s[..k] + ([s[k], s[k + 1]] + s[k + 2..]);
    assert multiset([s[k], s[k + 1]])[s[k]] == 2;
  }

  lemma NeighboursDiffer(x: Row, k: nat)
    requires Distinct(x) && k + 1 < |x|
    ensures Sorted(Itself(), x)[k] < Sorted(Itself(), x)[k + 1]
  {
    var sorted := Sorted(Itself(), x);
    SortedOrdered(Itself(), x);
    SortedElements(Itself(), x);
    DistinctCounts(x);
    assert Itself()(sorted[k]) <= Itself()(sorted[k + 1]);
    if sorted[k] == sorted[k + 1] {
      CountedTwice(sorted, k);
    }
  }

  lemma DistinctFlags(x: Row, q: real)
    requires x != [] && Distinct(x) && 0.0 <= q <= 1.0
    ensures Flagged(x, Quantile(x, q)) == Budget(|x|, 1.0 - q)
  {
    QuantileFlags(x, q);
    if Below(|x|, q) + 1 < |x| {
      NeighboursDiffer(x, Below(|x|, q));
    }
  }

  function IsTrue(): bool -> nat {
    (b: bool) => if b then 1 else 0
  }

  lemma {:induction false} FlagsOf(errors: Row, threshold: real)
    ensures Total(IsTrue(), seq(|errors|, i requires 0 <= i < |errors| => errors[i] > threshold)) == Flagged(errors, threshold)
  {
    if errors != [] {
      var flags := seq(|errors|, i requires 0 <= i < |errors| => errors[i] > threshold);
      FlagsOf(errors[1..], threshold);
      assert flags[1..] == seq(|errors[1..]|, i requires 0 <= i < |errors[1..]| => errors[1..][i] > threshold);
    }
  }

  // The model flags at most the budget of the n readings it was calibrated on,
  // 0.5% of n - 1 rounded up, and exactly that many when their errors are distinct.
  lemma CalibrationBound(act: Activation, b: Bundle, xCal: Matrix)
    requires xCal.rows > 0 && ScoreBatch(act, b, xCal).Some?
    requires b.threshold == Quantile(ReconstructionErrors(act, b, xCal).value, 1.0 - FP_BUDGET)
    ensures var errors := ReconstructionErrors(act, b, xCal).value;
      var alarms := Total(IsTrue(), ScoreBatch(act, b, xCal).value.0);
      && alarms <= Budget(xCal.rows, FP_BUDGET)
      && (Distinct(errors) ==> alarms == Budget(xCal.rows, FP_BUDGET))
  {
    var errors := ReconstructionErrors(act, b, xCal).value;
    BatchErrors(act, b, xCal, 0);
    QuantileFlags(errors, 1.0 - FP_BUDGET);
    if Distinct(errors) {
      DistinctFlags(errors, 1.0 - FP_BUDGET);
    }
    FlagsOf(errors, b.threshold);
    assert ScoreBatch(act, b, xCal).value.0 == seq(|errors|, i requires 0 <= i < |errors| => errors[i] > b.threshold);
  }
}
