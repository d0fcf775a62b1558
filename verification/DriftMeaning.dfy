// What the drift signals measure, said without the way they are computed
// (inference/drift.py).
module DriftMeaning {
  import opened Tallies
  import opened Tensors
  import opened Drift
  import opened DriftProofs

  // ----- bins --------------------------------------------------------------------------------

  // Eleven edges at equal distances from -4 to 4.
  lemma EdgesEven(k: nat)
    requires k < INNER_BINS
    ensures Edge(0) == -4.0 && Edge(INNER_BINS) == 4.0 && Edge(k + 1) - Edge(k) == 0.8
  {
  }

  function BelowEdge(e: real): real -> nat {
    (z: real) => if z < e then 1 else 0
  }

  // The number of values in a bin, from the numbers of values below its two edges.
  lemma {:induction false} BinCount(z: Row, k: nat)
    requires k <= INNER_BINS + 1
    ensures Total(Falls(k), Samples(z)) + (if k == 0 then 0 else Total(BelowEdge(Edge(k - 1)), z))
            == if k <= INNER_BINS then Total(BelowEdge(Edge(k)), z) else |z|
  {
    if z != [] {
      BinCount(z[1..], k);
      assert Samples(z)[1..] == Samples(z[1..]);
      if 1 <= k <= INNER_BINS {
        EdgesRise(k - 1, k);
      }
    }
  }

  // The distribution function of a finite sample: the share of values below x.
  function Empirical(z: Row): Function
    requires z != []
  {
    (x: real) => Fraction(Total(BelowEdge(x), z), |z|)
  }

  lemma SubtractFractions(a: nat, b: nat, c: nat, size: nat)
    requires size > 0 && a + b == c
    ensures Fraction(a, size) == Fraction(c, size) - Fraction(b, size)
  {
    AddFractions(a, b, size);
  }

  // Taken from the distribution of the sample itself, the expected masses are its shares,
  // bin by bin.
  lemma OwnMasses(z: Row)
    requires z != []
    ensures ExpectedMasses(Empirical(z)) == Shares(Samples(z))
  {
    var m, s := ExpectedMasses(Empirical(z)), Shares(Samples(z));
    forall k | 0 <= k < INNER_BINS + 2
      ensures m[k] == s[k]
    {
      BinCount(z, k);
      var here := Total(Falls(k), Samples(z));
      assert s[k] == Fraction(here, |z|);
      if k > 0 {
        var before := Total(BelowEdge(Edge(k - 1)), z);
        if k <= INNER_BINS {
          SubtractFractions(here, before, Total(BelowEdge(Edge(k)), z), |z|);
        } else {
          SubtractFractions(here, before, |z|, |z|);
          Whole(|z|);
        }
      }
    }
  }

  // So a sample does not drift from itself.
  lemma NoDriftFromItself(ln: Function, z: Row)
    requires Logarithmic(ln) && z != []
    ensures Psi(ln, Empirical(z), Samples(z)) == 0.0
  {
    OwnMasses(z);
    PsiIsDistance(ln, Empirical(z), Samples(z));
  }

  // Shares and masses below a ten-thousandth count as that, others as they are.
  lemma FlooredAt(x: Row, k: nat)
    requires k < |x|
    ensures Floored(x)[k] == if x[k] >= 0.0001 then x[k] else 0.0001
  {
  }

  // ----- relative entropy ------------------------------------------------------------------------

  // The logarithm of a quotient is the difference of the logarithms.
  predicate TurnsQuotient(ln: Function, x: real, y: real, q: real) {
    x > 0.0 && y > 0.0 && q * y == x ==> ln(q) == ln(x) - ln(y)
  }

  ghost predicate TurnsQuotients(ln: Function) {
    forall x, y, q :: TurnsQuotient(ln, x, y, q)
  }

  // What it costs to take q for p.
  function RelativeEntropy(ln: Function, p: Row, q: Row): real
    requires |p| == |q|
  {
    if p == [] then 0.0 else p[0] * (ln(p[0]) - ln(q[0])) + RelativeEntropy(ln, p[1..], q[1..])
  }

  lemma QuotientTimes(a: real, e: real)
    requires e > 0.0
    ensures Quotient(a, e) * e == a
  {
  }

  lemma TermIs(ln: Function, a: real, e: real)
    requires TurnsQuotients(ln) && a > 0.0 && e > 0.0
    ensures Term(ln, a, e) == a * (ln(a) - ln(e)) + e * (ln(e) - ln(a))
  {
    QuotientTimes(a, e);
    var d := ln(a) - ln(e);
    assert TurnsQuotient(ln, a, e, Quotient(a, e));
    Apart(a, e, d);
  }

  lemma Apart(a: real, e: real, d: real)
    ensures (a - e) * d == a * d + e * (-d)
  {
  }

  predicate Splits(ln: Function, a: real, e: real) {
    Term(ln, a, e) == a * (ln(a) - ln(e)) + e * (ln(e) - ln(a))
  }

  lemma {:induction false} DivergenceIs(ln: Function, a: Row, e: Row)
    requires |a| == |e| && forall k :: 0 <= k < |a| ==> Splits(ln, a[k], e[k])
    ensures Divergence(ln, a, e) == RelativeEntropy(ln, a, e) + RelativeEntropy(ln, e, a)
  {
    if a != [] {
      assert Splits(ln, a[0], e[0]);
      DivergenceIs(ln, a[1..], e[1..]);
    }
  }

  // PSI is the sum of the two relative entropies between the floored shares of the sample
  // and the floored masses of the reference.
  lemma PsiIsEntropies(ln: Function, cdf: Function, samples: seq<Sample>)
    requires TurnsQuotients(ln)
    ensures var a, e := Floored(Shares(samples)), Floored(ExpectedMasses(cdf));
            Psi(ln, cdf, samples) == RelativeEntropy(ln, a, e) + RelativeEntropy(ln, e, a)
  {
    var a, e := Floored(Shares(samples)), Floored(ExpectedMasses(cdf));
    forall k | 0 <= k < |a|
      ensures Splits(ln, a[k], e[k])
    {
      TermIs(ln, a[k], e[k]);
    }
    DivergenceIs(ln, a, e);
  }

  lemma SameQuotient(a: real, e: real, c: real)
    requires e > 0.0 && c > 0.0
    ensures Quotient(c * a, c * e) == Quotient(a, e)
  {
    var p, q := Quotient(c * a, c * e), Quotient(a, e);
    Positives(c, e);
    QuotientTimes(c * a, c * e);
    QuotientTimes(a, e);
    assert q * (c * e) == c * (q * e);
    SameMultiple(p, q, c * e);
  }

  lemma Positives(c: real, e: real)
    requires c > 0.0 && e > 0.0
    ensures c * e > 0.0
  {
  }

  // Whatever the logarithm: a term grows with its two masses, and where the actual mass
  // is twice the expected one it is the expected one times the logarithm of 2.
  lemma TermScales(ln: Function, a: real, e: real, c: real)
    requires e > 0.0 && c > 0.0
    ensures Term(ln, c * a, c * e) == c * Term(ln, a, e)
    ensures Term(ln, 2.0 * e, e) == e * ln(2.0)
  {
    SameQuotient(a, e, c);
    assert c * a - c * e == c * (a - e);
    Regrouped(c, a - e, ln(Quotient(a, e)));
    QuotientTimes(2.0 * e, e);
    SameMultiple(Quotient(2.0 * e, e), 2.0, e);
  }

  lemma Regrouped(c: real, d: real, l: real)
    ensures (c * d) * l == c * (d * l)
  {
  }

  // ----- the signals of a window -------------------------------------------------------------------

  // A standardised value is the distance from the training mean in training standard
  // deviations: it can be undone.
  lemma StandardisedAt(readings: seq<Row>, f: nat, mean: real, scale: real, i: nat)
    requires scale != 0.0 && i < |readings| && forall i :: 0 <= i < |readings| ==> f < |readings[i]|
    ensures Standardised(readings, f, mean, scale)[i] * scale + mean == readings[i][f]
  {
    StandardisedOne(readings[i][f], mean, scale);
  }

  // With statistics of the right width, the signals of a feature are made of that feature
  // of every reading and of its own mean and scale.
  lemma SignalIs(ln: Function, cdf: Function, readings: seq<Row>, width: nat, mean: Row, scale: Row, f: nat)
    requires readings != [] && |mean| == |scale| == width && f < width && AllOfWidth(readings, width) && NoneZero(scale)
    requires TurnsQuotients(ln)
    ensures Matching(width, mean, scale)
    ensures var s := SignalsOf(ln, cdf, readings, width, mean, scale)[f];
            var z := Samples(Standardised(readings, f, mean[f], scale[f]));
            var a, e := Floored(Shares(z)), Floored(ExpectedMasses(cdf));
            && s.zshift == (Mean(Feature(readings, f)) - mean[f]) / scale[f]
            && s.psi == RelativeEntropy(ln, a, e) + RelativeEntropy(ln, e, a)
  {
    assert Stretched(mean, f) == mean[f] && Stretched(scale, f) == scale[f];
    ZShiftIs(ln, cdf, readings, f, mean[f], scale[f]);
    PsiIsEntropies(ln, cdf, Samples(Standardised(readings, f, mean[f], scale[f])));
  }
}
