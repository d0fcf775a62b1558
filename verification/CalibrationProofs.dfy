// What calibration computes, said without sorting or scaling (ml/train.py).
module CalibrationProofs {
  import opened Tensors
  import opened Sorting
  import opened Scoring
  import opened Calibration
  import opened Layers

  // ----- the quantile -------------------------------------------------------------------

  // s is x in ascending order.
  predicate Arranges(s: Row, x: Row) {
    multiset(s) == multiset(x) && Ordered(Itself(), s)
  }

  lemma HeadLeast(s: Row, t: Row)
    requires s != [] && t != [] && multiset(s) == multiset(t) && Ordered(Itself(), s) && Ordered(Itself(), t)
    ensures s[0] <= t[0]
  {
    assert t[0] in multiset(t);
    var i :| 0 <= i < |s| && s[i] == t[0];
    assert i > 0 ==> Itself()(s[0]) <= Itself()(s[i]);
  }

  lemma OrderedTail(s: Row)
    requires s != [] && Ordered(Itself(), s)
    ensures Ordered(Itself(), s[1..])
  {
    forall i, j | 0 <= i < j < |s[1..]|
      ensures Itself()(s[1..][i]) <= Itself()(s[1..][j])
    {
      assert Itself()(s[i + 1]) <= Itself()(s[j + 1]);
    }
  }

  // There is one ascending order.
  lemma {:induction false} OneArrangement(s: Row, t: Row)
    requires multiset(s) == multiset(t) && Ordered(Itself(), s) && Ordered(Itself(), t)
    ensures s == t
  {
    assert |multiset(s)| == |s| && |multiset(t)| == |t|;
    if s != [] {
      HeadLeast(s, t);
      HeadLeast(t, s);
      assert s == [s[0]] + s[1..] && t == [t[0]] + t[1..];
      assert multiset(s[1..]) == multiset(s) - multiset{s[0]} && multiset(t[1..]) == multiset(t) - multiset{t[0]};
      OrderedTail(s);
      OrderedTail(t);
      OneArrangement(s[1..], t[1..]);
    }
  }

  lemma Between(a: real, b: real, g: real)
    ensures Lerp(a, b, g) == (1.0 - g) * a + g * b
  {
  }

  lemma PositionSplits(n: nat, q: real, lo: nat, g: real)
    requires n > 0 && 0.0 <= q <= 1.0 && 0.0 <= g < 1.0 && Position(n, q) == lo as real + g
    ensures Below(n, q) == lo < n
  {
  }

  lemma InterpolateAt(s: Row, lo: nat, g: real)
    requires lo < |s|
    ensures Interpolate(s, lo, g) == if lo + 1 < |s| then (1.0 - g) * s[lo] + g * s[lo + 1] else s[lo]
  {
    if lo + 1 < |s| {
      Between(s[lo], s[lo + 1], g);
    }
  }

  lemma SortedIs(x: Row, s: Row)
    requires Arranges(s, x)
    ensures s == Sorted(Itself(), x)
  {
    SortedElements(Itself(), x);
    SortedOrdered(Itself(), x);
    OneArrangement(s, Sorted(Itself(), x));
  }

  // At a fraction g between two positions of the values in ascending order, the quantile
  // lies at that fraction between the two.
  lemma QuantileAt(x: Row, q: real, s: Row, lo: nat, g: real)
    requires x != [] && 0.0 <= q <= 1.0 && Arranges(s, x)
    requires 0.0 <= g < 1.0 && Position(|x|, q) == lo as real + g
    ensures lo < |s| == |x|
    ensures Quantile(x, q) == if lo + 1 < |s| then (1.0 - g) * s[lo] + g * s[lo + 1] else s[lo]
  {
    SortedIs(x, s);
    PositionSplits(|x|, q, lo, g);
    InterpolateAt(s, lo, g);
  }

  // The position is that share of the way from the first value to the last.
  lemma PositionIs(n: nat, q: real)
    requires n > 0
    ensures Position(n, q) == q * ((n - 1) as real) && Position(n, 0.0) == 0.0 && Position(n, 1.0) == (n - 1) as real
  {
  }

  // ----- standardising ------------------------------------------------------------------

  // y scaled up is x shifted down.
  predicate Undoes(y: real, x: real, mean: real, scale: real) {
    y * scale == x - mean
  }

  predicate AllUndo(y: Row, x: Row, mean: real, scale: real) {
    |y| == |x| && forall i :: 0 <= i < |x| ==> Undoes(y[i], x[i], mean, scale)
  }

  lemma AddUndone(a: real, x: real, mean: real, b: real, t: real, means: real, scale: real)
    requires Undoes(a, x, mean, scale) && Undoes(b, t, means, scale)
    ensures Undoes(a + b, x + t, mean + means, scale)
  {
  }

  lemma OneMore(mean: real, n: nat)
    ensures mean + mean * (n as real) == mean * ((n + 1) as real)
  {
  }

  lemma {:induction false} SumUndone(y: Row, x: Row, mean: real, scale: real)
    requires AllUndo(y, x, mean, scale)
    ensures Undoes(Sum(y), Sum(x), mean * (|x| as real), scale)
  {
    if x != [] {
      assert Undoes(y[0], x[0], mean, scale);
      SumUndone(y[1..], x[1..], mean, scale);
      AddUndone(y[0], x[0], mean, Sum(y[1..]), Sum(x[1..]), mean * (|x[1..]| as real), scale);
      OneMore(mean, |x[1..]|);
    }
  }

  lemma MeanTimes(x: Row, mean: real)
    requires x != [] && mean == Mean(x)
    ensures mean * (|x| as real) == Sum(x)
  {
  }

  function Squares(x: Row): Row {
    seq(|x|, i requires 0 <= i < |x| => x[i] * x[i])
  }

  lemma SquareUndone(y: real, x: real, mean: real, scale: real, v: real)
    requires Undoes(y, x, mean, scale) && scale * scale == v
    ensures Undoes(y * y, (x - mean) * (x - mean), 0.0, v)
  {
    Swapped(y, scale);
  }

  lemma Swapped(y: real, s: real)
    ensures (y * y) * (s * s) == (y * s) * (y * s)
  {
  }

  lemma Cancels(a: real, t: real, means: real, c: real, n: real)
    requires Undoes(a, t, means, c) && t - means == c * n && c != 0.0
    ensures a == n
  {
    assert (a - n) * c == 0.0;
  }

  lemma CentredSum(y: Row, x: Row, mean: real, scale: real)
    requires x != [] && AllUndo(y, x, mean, scale) && mean == Mean(x) && scale != 0.0
    ensures Sum(y) == 0.0
  {
    SumUndone(y, x, mean, scale);
    MeanTimes(x, mean);
    Cancels(Sum(y), Sum(x), mean * (|x| as real), scale, 0.0);
  }

  lemma UnitSquares(y: Row, x: Row, mean: real, scale: real, v: real)
    requires x != [] && AllUndo(y, x, mean, scale) && scale * scale == v != 0.0
    requires v == Mean(SquaredDeviations(x, mean))
    ensures Sum(Squares(y)) == |x| as real
  {
    var squares, deviations := Squares(y), SquaredDeviations(x, mean);
    forall i | 0 <= i < |x|
      ensures Undoes(squares[i], deviations[i], 0.0, v)
    {
      SquareUndone(y[i], x[i], mean, scale, v);
    }
    SumUndone(squares, deviations, 0.0, v);
    MeanTimes(deviations, v);
    Cancels(Sum(squares), Sum(deviations), 0.0 * (|x| as real), v, |x| as real);
  }

  lemma SpreadOf(sqrt: Function, fit: Fit, xTrain: Matrix, features: seq<string>, j: nat, v: real)
    requires xTrain.rows > 0 && j < xTrain.cols
    requires v == Mean(SquaredDeviations(Column(xTrain, j), ColumnMean(xTrain, j))) && sqrt(v) * sqrt(v) == v != 0.0
    ensures var b := Uncalibrated(sqrt, fit, xTrain, features);
            && |b.mean| == |b.scale| == xTrain.cols
            && b.mean[j] == ColumnMean(xTrain, j) && b.scale[j] == sqrt(v) && b.scale[j] != 0.0
  {
    assert Stds(sqrt, xTrain)[j] == sqrt(v);
    assert sqrt(v) != 0.0;
  }

  lemma ColumnUndone(b: Bundle, x: Matrix, j: nat)
    requires |b.mean| == |b.scale| == x.cols && j < x.cols && b.scale[j] != 0.0
    ensures Scaled(b, x).Some? && j < Scaled(b, x).value.cols
    ensures x.rows > 0 ==> AllUndo(Column(Scaled(b, x).value, j), Column(x, j), b.mean[j], b.scale[j])
  {
    WithRowFits(Minus(), x, b.mean);
    WithRowFits(Over(), WithRow(Minus(), x, b.mean).value, b.scale);
    if x.rows > 0 {
      var y := Column(Scaled(b, x).value, j);
      forall i | 0 <= i < x.rows
        ensures Undoes(y[i], x.at[i][j], b.mean[j], b.scale[j])
      {
        ScalingInverts(b, x, i, j);
      }
    }
  }

  // What the network is trained on: every feature that varies has mean 0 and mean square
  // 1 over the training readings.
  lemma TrainingStandardised(sqrt: Function, fit: Fit, xTrain: Matrix, features: seq<string>, j: nat)
    requires xTrain.rows > 0 && j < xTrain.cols
    requires var v := Mean(SquaredDeviations(Column(xTrain, j), ColumnMean(xTrain, j))); sqrt(v) * sqrt(v) == v != 0.0
    ensures var z := Scaled(Uncalibrated(sqrt, fit, xTrain, features), xTrain);
            && z.Some? && j < z.value.cols
            && Sum(Column(z.value, j)) == 0.0
            && Sum(Squares(Column(z.value, j))) == xTrain.rows as real
  {
    var b, x := Uncalibrated(sqrt, fit, xTrain, features), Column(xTrain, j);
    var v := Mean(SquaredDeviations(x, ColumnMean(xTrain, j)));
    SpreadOf(sqrt, fit, xTrain, features, j, v);
    ColumnUndone(b, xTrain, j);
    CentredSum(Column(Scaled(b, xTrain).value, j), x, b.mean[j], b.scale[j]);
    UnitSquares(Column(Scaled(b, xTrain).value, j), x, b.mean[j], b.scale[j], v);
  }
}
