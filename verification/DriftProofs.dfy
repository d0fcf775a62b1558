// The population stability index measures a distance between two distributions.
module DriftProofs {
  import opened Tallies
  import opened Tensors
  import opened Drift

  // ----- bins partition the samples -------------------------------------------------------

  lemma EdgesRise(j: nat, k: nat)
    requires j < k <= INNER_BINS
    ensures Edge(j) < Edge(k)
  {
  }

  lemma {:induction false} FindBin(z: real, k: nat) returns (b: nat)
    requires k <= INNER_BINS && (k == 0 || Edge(k - 1) <= z)
    ensures k <= b <= INNER_BINS + 1 && InBin(Finite(z), b)
    decreases INNER_BINS - k
  {
    if z < Edge(k) {
      b := k;
    } else if k == INNER_BINS {
      b := k + 1;
    } else {
      b := FindBin(z, k + 1);
    }
  }

  lemma NotInTwo(z: real, j: nat, k: nat)
    requires j < k <= INNER_BINS + 1
    ensures !(InBin(Finite(z), j) && InBin(Finite(z), k))
  {
    if j < k - 1 {
      EdgesRise(j, k - 1);
    }
  }

  // Every sample that is a number, infinities included, falls in exactly one bin, and
  // one that is not falls in none.
  lemma ExactlyOneBin(s: Sample) returns (b: nat)
    ensures b <= INNER_BINS + 1
    ensures forall k :: 0 <= k <= INNER_BINS + 1 ==> (InBin(s, k) <==> s != NotANumber && k == b)
  {
    match s
    case NotANumber => b := 0;
    case MinusInf => b := 0;
    case PlusInf => b := INNER_BINS + 1;
    case Finite(z) =>
      b := FindBin(z, 0);
      forall k | 0 <= k <= INNER_BINS + 1 && k != b
        ensures !InBin(s, k)
      {
        if k < b {
          NotInTwo(z, k, b);
        } else {
          NotInTwo(z, b, k);
        }
      }
  }

  function IsNumber(): Sample -> nat {
    (s: Sample) => if s == NotANumber then 0 else 1
  }

  lemma {:induction false} SumOfUpdate(s: seq<nat>, k: nat, v: nat)
    requires k < |s|
    ensures SumNat(s[k := v]) + s[k] == SumNat(s) + v
  {
    if k == 0 {
      assert s[k := v][1..] == s[1..];
    } else {
      SumOfUpdate(s[1..], k - 1, v);
      assert s[k := v][1..] == s[1..][k - 1 := v];
    }
  }

  lemma {:induction false} SumOfZeros(s: seq<nat>)
    requires forall i :: 0 <= i < |s| ==> s[i] == 0
    ensures SumNat(s) == 0
  {
    if s != [] {
      SumOfZeros(s[1..]);
    }
  }

  lemma HistogramStep(samples: seq<Sample>)
    requires samples != []
    ensures SumNat(Histogram(samples)) == SumNat(Histogram(samples[1..])) + IsNumber()(samples[0])
  {
    var b := ExactlyOneBin(samples[0]);
    var h, rest := Histogram(samples), Histogram(samples[1..]);
    if samples[0] == NotANumber {
      assert h == rest;
    } else {
      assert h == rest[b := rest[b] + 1];
      SumOfUpdate(rest, b, rest[b] + 1);
    }
  }

  // The counts add up to the number of samples that are numbers.
  lemma {:induction false} CountsSum(samples: seq<Sample>)
    ensures SumNat(Histogram(samples)) == Total(IsNumber(), samples)
  {
    if samples == [] {
      SumOfZeros(Histogram(samples));
    } else {
      HistogramStep(samples);
      CountsSum(samples[1..]);
    }
  }

  // ----- the reference distribution ---------------------------------------------------------

  lemma {:induction false} Telescope(cdf: Function, k: nat)
    requires 1 <= k <= INNER_BINS + 1
    ensures Sum(ExpectedMasses(cdf)[k..]) == 1.0 - cdf(Edge(k - 1))
    decreases INNER_BINS + 1 - k
  {
    var m := ExpectedMasses(cdf);
    assert m[k..][1..] == m[k + 1..];
    if k <= INNER_BINS {
      Telescope(cdf, k + 1);
    } else {
      assert m[k..] == [m[k]];
      assert Sum(m[k..][1..]) == 0.0;
    }
  }

  ghost predicate Distribution(cdf: Function) {
    && (forall x, y :: x <= y ==> cdf(x) <= cdf(y))
    && forall x :: 0.0 <= cdf(x) <= 1.0
  }

  lemma MassesNonNegative(cdf: Function)
    requires Distribution(cdf)
    ensures forall k :: 0 <= k <= INNER_BINS + 1 ==> ExpectedMasses(cdf)[k] >= 0.0
  {
    forall k | 0 <= k <= INNER_BINS + 1
      ensures ExpectedMasses(cdf)[k] >= 0.0
    {
      if 1 <= k <= INNER_BINS {
        EdgesRise(k - 1, k);
      }
    }
  }

  // Expected masses add up to exactly 1, whatever the function they are taken from; they
  // are a probability distribution if it is a distribution function.
  lemma MassesSum(cdf: Function)
    ensures Sum(ExpectedMasses(cdf)) == 1.0
    ensures Distribution(cdf) ==> forall k :: 0 <= k <= INNER_BINS + 1 ==> ExpectedMasses(cdf)[k] >= 0.0
  {
    var m := ExpectedMasses(cdf);
    Telescope(cdf, 1);
    assert m == [m[0]] + m[1..];
    if Distribution(cdf) {
      MassesNonNegative(cdf);
    }
  }

  // ----- the index --------------------------------------------------------------------------

  ghost predicate Logarithmic(ln: Function) {
    && ln(1.0) == 0.0
    && forall x, y :: 0.0 < x < y ==> ln(x) < ln(y)
  }

  predicate Positive(x: Row) {
    forall i :: 0 <= i < |x| ==> x[i] > 0.0
  }

  lemma QuotientAboutOne(a: real, e: real)
    requires a > 0.0 && e > 0.0
    ensures Quotient(a, e) > 0.0
    ensures (a > e <==> Quotient(a, e) > 1.0) && (a < e <==> Quotient(a, e) < 1.0)
  {
    var q := a / e;
    assert q * e == a;
  }

  lemma SameSign(x: real, y: real)
    ensures x > 0.0 && y > 0.0 ==> x * y > 0.0
    ensures x < 0.0 && y < 0.0 ==> x * y > 0.0
  {
  }

  // A term has no negative value, and is zero only where the shares agree.
  lemma TermIsDistance(ln: Function, a: real, e: real)
    requires Logarithmic(ln) && a > 0.0 && e > 0.0
    ensures Term(ln, a, e) >= 0.0
    ensures Term(ln, a, e) == 0.0 <==> a == e
  {
    QuotientAboutOne(a, e);
    SameSign(a - e, ln(Quotient(a, e)));
  }

  lemma SplitEqual(x: Row, y: Row)
    requires |x| == |y| > 0
    ensures x == y <==> x[0] == y[0] && x[1..] == y[1..]
  {
    assert x == [x[0]] + x[1..] && y == [y[0]] + y[1..];
  }

  lemma {:induction false} DivergenceIsDistance(ln: Function, actual: Row, expected: Row)
    requires Logarithmic(ln) && |actual| == |expected| && Positive(actual) && Positive(expected)
    ensures Divergence(ln, actual, expected) >= 0.0
    ensures Divergence(ln, actual, expected) == 0.0 <==> actual == expected
  {
    if actual != [] {
      TermIsDistance(ln, actual[0], expected[0]);
      DivergenceIsDistance(ln, actual[1..], expected[1..]);
      SplitEqual(actual, expected);
    }
  }

  // PSI is never negative, and is zero exactly when the floored distributions agree.
  lemma PsiIsDistance(ln: Function, cdf: Function, samples: seq<Sample>)
    requires Logarithmic(ln)
    ensures Psi(ln, cdf, samples) >= 0.0
    ensures Psi(ln, cdf, samples) == 0.0 <==> Floored(Shares(samples)) == Floored(ExpectedMasses(cdf))
  {
    DivergenceIsDistance(ln, Floored(Shares(samples)), Floored(ExpectedMasses(cdf)));
  }

  // ----- z-shift --------------------------------------------------------------------------------

  // Feature f of the readings.
  function Feature(readings: seq<Row>, f: nat): (x: Row)
    requires forall i :: 0 <= i < |readings| ==> f < |readings[i]|
    ensures |x| == |readings|
  {
    seq(|readings|, i requires 0 <= i < |readings| => readings[i][f])
  }

  lemma StandardisedOne(x: real, mean: real, scale: real)
    requires scale != 0.0
    ensures ((x - mean) / scale) * scale == x - mean
  {
  }

  lemma OneMoreSample(z: real, x: real, zs: real, xs: real, n: nat, mean: real, scale: real, zAll: real, xAll: real)
    requires z * scale == x - mean && zs * scale == xs - (n as real) * mean
    requires zAll == z + zs && xAll == x + xs
    ensures zAll * scale == xAll - ((n + 1) as real) * mean
  {
    assert zAll * scale == z * scale + zs * scale;
    assert ((n + 1) as real) * mean == (n as real) * mean + mean;
  }

  lemma TailOf(readings: seq<Row>, f: nat, mean: real, scale: real)
    requires readings != [] && scale != 0.0 && forall i :: 0 <= i < |readings| ==> f < |readings[i]|
    ensures Standardised(readings, f, mean, scale)[1..] == Standardised(readings[1..], f, mean, scale)
    ensures Feature(readings, f)[1..] == Feature(readings[1..], f)
    ensures Standardised(readings, f, mean, scale)[0] * scale == Feature(readings, f)[0] - mean
  {
    StandardisedOne(readings[0][f], mean, scale);
  }

  lemma SumHead(x: Row)
    requires x != []
    ensures Sum(x) == x[0] + Sum(x[1..])
  {
  }

  lemma SumStep(z: Row, x: Row, zRest: real, xRest: real, n: nat, mean: real, scale: real) returns (zs: real, xs: real)
    requires |z| == |x| == n + 1 && z[0] * scale == x[0] - mean
    requires zRest == Sum(z[1..]) && xRest == Sum(x[1..]) && zRest * scale == xRest - (n as real) * mean
    ensures zs == Sum(z) && xs == Sum(x) && zs * scale == xs - ((n + 1) as real) * mean
  {
    SumHead(z);
    SumHead(x);
    zs, xs := z[0] + zRest, x[0] + xRest;
    OneMoreSample(z[0], x[0], zRest, xRest, n, mean, scale, zs, xs);
  }

  lemma {:induction false} StandardisedSum(readings: seq<Row>, f: nat, mean: real, scale: real)
    returns (zs: real, xs: real)
    requires scale != 0.0 && forall i :: 0 <= i < |readings| ==> f < |readings[i]|
    ensures zs == Sum(Standardised(readings, f, mean, scale)) && xs == Sum(Feature(readings, f))
    ensures zs * scale == xs - (|readings| as real) * mean
  {
    if readings == [] {
      zs, xs := 0.0, 0.0;
    } else {
      var rest := readings[1..];
      zs, xs := StandardisedSum(rest, f, mean, scale);
      TailOf(readings, f, mean, scale);
      zs, xs := SumStep(Standardised(readings, f, mean, scale), Feature(readings, f), zs, xs, |rest|, mean, scale);
    }
  }

  lemma MeanTimes(x: Row, sum: real, n: real) returns (mean: real)
    requires x != [] && sum == Sum(x) && n == |x| as real
    ensures mean == Mean(x) && mean * n == sum
  {
    mean := sum / n;
  }

  // Means z and x of n samples each, whose sums are related as above.
  lemma MeansRelated(z: real, x: real, zs: real, xs: real, n: real, mean: real, scale: real)
    requires n > 0.0 && scale != 0.0 && z * n == zs && x * n == xs && zs * scale == xs - n * mean
    ensures z == (x - mean) / scale
  {
    assert (z * scale) * n == (z * n) * scale;
    assert (x - mean) * n == x * n - n * mean;
    SameMultiple(z * scale, x - mean, n);
    SameMultiple(z, (x - mean) / scale, scale);
  }

  lemma SameMultiple(a: real, b: real, c: real)
    requires c != 0.0 && a * c == b * c
    ensures a == b
  {
  }

  lemma StandardisedMean(readings: seq<Row>, f: nat, mean: real, scale: real)
    requires readings != [] && scale != 0.0 && forall i :: 0 <= i < |readings| ==> f < |readings[i]|
    ensures Mean(Standardised(readings, f, mean, scale)) == (Mean(Feature(readings, f)) - mean) / scale
  {
    var zs, xs := StandardisedSum(readings, f, mean, scale);
    var n := |readings| as real;
    var z := MeanTimes(Standardised(readings, f, mean, scale), zs, n);
    var x := MeanTimes(Feature(readings, f), xs, n);
    MeansRelated(z, x, zs, xs, n, mean, scale);
  }

  // The signal is the distance of the rolling mean from the training mean, in training
  // standard deviations, sign included.
  lemma ZShiftIs(ln: Function, cdf: Function, readings: seq<Row>, f: nat, mean: real, scale: real)
    requires readings != [] && scale != 0.0 && forall i :: 0 <= i < |readings| ==> f < |readings[i]|
    ensures SignalOf(ln, cdf, Standardised(readings, f, mean, scale)).zshift
            == (Mean(Feature(readings, f)) - mean) / scale
  {
    StandardisedMean(readings, f, mean, scale);
  }

  // ----- the shares are a distribution too ----------------------------------------------------

  function Fractions(counts: seq<nat>, size: nat): Row
    requires size > 0
  {
    seq(|counts|, k requires 0 <= k < |counts| => Fraction(counts[k], size))
  }

  lemma AddFractions(a: nat, b: nat, size: nat)
    requires size > 0
    ensures Fraction(a, size) + Fraction(b, size) == Fraction(a + b, size)
  {
    var x, y, n := a as real, b as real, size as real;
    assert x / n + y / n == (x + y) / n;
  }

  lemma {:induction false} FractionsSum(counts: seq<nat>, size: nat)
    requires size > 0
    ensures Sum(Fractions(counts, size)) == Fraction(SumNat(counts), size)
  {
    if counts != [] {
      FractionsSum(counts[1..], size);
      assert Fractions(counts, size)[1..] == Fractions(counts[1..], size);
      AddFractions(counts[0], SumNat(counts[1..]), size);
    }
  }

  lemma {:induction false} AllNumbers(samples: seq<Sample>)
    requires NotANumber !in samples
    ensures Total(IsNumber(), samples) == |samples|
  {
    if samples != [] {
      AllNumbers(samples[1..]);
    }
  }

  lemma Whole(n: nat)
    requires n > 0
    ensures Fraction(n, n) == 1.0
  {
  }

  lemma SharesAreFractions(samples: seq<Sample>)
    requires samples != []
    ensures Shares(samples) == Fractions(Histogram(samples), |samples|)
  {
  }

  // The shares of a sample without gaps add up to 1.
  lemma SharesSum(samples: seq<Sample>)
    requires samples != [] && NotANumber !in samples
    ensures Sum(Shares(samples)) == 1.0
  {
    CountsSum(samples);
    AllNumbers(samples);
    FractionsSum(Histogram(samples), |samples|);
    SharesAreFractions(samples);
    Whole(|samples|);
  }
}
