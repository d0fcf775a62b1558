// What the scorer computes, said without its recursions: the laws that determine the
// matrix product, the score of particular networks, and the verdict (ml/scoring.py).
module Layers {
  import opened Wrappers
  import opened Tensors
  import opened Scoring

  // ----- the product of two rows ----------------------------------------------------------

  lemma DotOne(x: real, y: real)
    ensures Dot([x], [y]) == x * y
  {
    assert [x][1..] == [] && [y][1..] == [];
  }

  // Rows joined end to end: the products add up.
  lemma {:induction false} DotAppend(a: Row, c: Row, b: Row, d: Row)
    requires |a| == |b| && |c| == |d|
    ensures Dot(a + c, b + d) == Dot(a, b) + Dot(c, d)
  {
    if a == [] {
      assert a + c == c && b + d == d;
    } else {
      DotAppend(a[1..], c, b[1..], d);
      assert (a + c)[1..] == a[1..] + c && (b + d)[1..] == b[1..] + d;
    }
  }

  // s * x + t * y, entry by entry.
  function Combined(s: real, x: Row, t: real, y: Row): (z: Row)
    requires |x| == |y|
    ensures |z| == |x|
  {
    seq(|x|, i requires 0 <= i < |x| => s * x[i] + t * y[i])
  }

  lemma CombinedTail(s: real, x: Row, t: real, y: Row)
    requires |x| == |y| && x != []
    ensures Combined(s, x, t, y)[1..] == Combined(s, x[1..], t, y[1..])
  {
    var p, q := Combined(s, x, t, y)[1..], Combined(s, x[1..], t, y[1..]);
    forall i | 0 <= i < |q|
      ensures p[i] == q[i]
    {
      assert x[1..][i] == x[i + 1] && y[1..][i] == y[i + 1];
    }
  }

  lemma OneEntry(s: real, x: real, t: real, y: real, b: real, p: real, q: real)
    ensures (s * x + t * y) * b + (s * p + t * q) == s * (x * b + p) + t * (y * b + q)
  {
    assert (s * x + t * y) * b == s * (x * b) + t * (y * b);
  }

  lemma {:induction false} DotLinear(s: real, x: Row, t: real, y: Row, b: Row)
    requires |x| == |y| == |b|
    ensures Dot(Combined(s, x, t, y), b) == s * Dot(x, b) + t * Dot(y, b)
  {
    if x != [] {
      DotLinear(s, x[1..], t, y[1..], b[1..]);
      CombinedTail(s, x, t, y);
      OneEntry(s, x[0], t, y[0], b[0], Dot(x[1..], b[1..]), Dot(y[1..], b[1..]));
    }
  }

  lemma {:induction false} DotNothing(a: Row, b: Row)
    requires |a| == |b| && forall i :: 0 <= i < |a| ==> a[i] == 0.0
    ensures Dot(a, b) == 0.0
  {
    if a != [] {
      DotNothing(a[1..], b[1..]);
    }
  }

  // Row k of the identity.
  function Unit(n: nat, k: nat): (u: Row)
    ensures |u| == n
  {
    seq(n, j => if j == k then 1.0 else 0.0)
  }

  // A unit row picks one entry.
  lemma {:induction false} UnitPicks(n: nat, k: nat, b: Row)
    requires k < n == |b|
    ensures Dot(Unit(n, k), b) == b[k]
  {
    if k == 0 {
      DotNothing(Unit(n, k)[1..], b[1..]);
    } else {
      UnitPicks(n - 1, k - 1, b[1..]);
      assert Unit(n, k)[1..] == Unit(n - 1, k - 1);
    }
  }

  lemma {:induction false} DotCommutes(a: Row, b: Row)
    requires |a| == |b|
    ensures Dot(a, b) == Dot(b, a)
  {
    if a != [] {
      DotCommutes(a[1..], b[1..]);
    }
  }

  // ----- a row times a matrix -----------------------------------------------------------------

  // A unit row gives a row of the matrix; with linearity this determines the product.
  lemma UnitRowThrough(w: Matrix, k: nat)
    requires k < w.rows
    ensures Through(Unit(w.rows, k), w) == w.at[k]
  {
    forall j | 0 <= j < w.cols
      ensures Through(Unit(w.rows, k), w)[j] == w.at[k][j]
    {
      UnitPicks(w.rows, k, Column(w, j));
    }
  }

  lemma ThroughLinear(s: real, x: Row, t: real, y: Row, w: Matrix)
    requires |x| == |y| == w.rows
    ensures Through(Combined(s, x, t, y), w) == Combined(s, Through(x, w), t, Through(y, w))
  {
    var p, q := Through(Combined(s, x, t, y), w), Combined(s, Through(x, w), t, Through(y, w));
    forall j | 0 <= j < w.cols
      ensures p[j] == q[j]
    {
      DotLinear(s, x, t, y, Column(w, j));
      assert q[j] == s * Through(x, w)[j] + t * Through(y, w)[j];
    }
  }

  function Identity(n: nat): (m: Matrix)
    ensures m.rows == n && m.cols == n
  {
    Array2(n, n, seq(n, i requires 0 <= i < n => Unit(n, i)))
  }

  lemma IdentityColumn(n: nat, j: nat)
    requires j < n
    ensures Column(Identity(n), j) == Unit(n, j)
  {
  }

  // The identity maps every row to itself.
  lemma ThroughIdentity(x: Row)
    ensures Through(x, Identity(|x|)) == x
  {
    forall j | 0 <= j < |x|
      ensures Through(x, Identity(|x|))[j] == x[j]
    {
      IdentityColumn(|x|, j);
      DotCommutes(x, Unit(|x|, j));
      UnitPicks(|x|, j, x);
    }
  }

  lemma TimesIdentity(m: Matrix)
    ensures MatMul(m, Identity(m.cols)) == Some(m)
  {
    forall i | 0 <= i < m.rows
      ensures MatMul(m, Identity(m.cols)).value.at[i] == m.at[i]
    {
      ThroughIdentity(m.at[i]);
    }
    assert MatMul(m, Identity(m.cols)).value.at == m.at;
  }

  function Mixture(s: real, a: Matrix, t: real, b: Matrix): (m: Matrix)
    requires a.rows == b.rows && a.cols == b.cols
  {
    Array2(a.rows, a.cols, seq(a.rows, i requires 0 <= i < a.rows => Combined(s, a.at[i], t, b.at[i])))
  }

  // The product is linear in its first factor.
  lemma MatMulLinear(s: real, a: Matrix, t: real, b: Matrix, w: Matrix)
    requires a.rows == b.rows && a.cols == b.cols == w.rows
    ensures MatMul(Mixture(s, a, t, b), w) == Some(Mixture(s, MatMul(a, w).value, t, MatMul(b, w).value))
  {
    var p, q := MatMul(Mixture(s, a, t, b), w).value, Mixture(s, MatMul(a, w).value, t, MatMul(b, w).value);
    forall i | 0 <= i < a.rows
      ensures p.at[i] == q.at[i]
    {
      ThroughLinear(s, a.at[i], t, b.at[i], w);
    }
    assert p.at == q.at;
  }

  // ----- broadcasting ---------------------------------------------------------------------------

  // A vector of the width of the rows combines entry by entry, one of length 1 with every
  // entry, and no other one at all unless the rows have length 1.
  lemma WithRowFits(op: Binary, a: Matrix, v: Row)
    ensures WithRow(op, a, v).None? <==> a.cols != |v| && |v| != 1 && a.cols != 1
    ensures |v| == a.cols || |v| == 1 ==>
      WithRow(op, a, v).Some? && WithRow(op, a, v).value.rows == a.rows && WithRow(op, a, v).value.cols == a.cols
  {
  }

  lemma WithRowAt(op: Binary, a: Matrix, v: Row, i: nat, j: nat)
    requires i < a.rows && j < a.cols && (|v| == a.cols || |v| == 1)
    ensures WithRow(op, a, v).Some? && j < |WithRow(op, a, v).value.at[i]|
    ensures WithRow(op, a, v).value.at[i][j] == op(a.at[i][j], if |v| == 1 then v[0] else v[j])
  {
    WithRowFits(op, a, v);
    assert WithRow(op, a, v).value.at[i] == RowOp(op, a.at[i], v);
    assert RowOp(op, a.at[i], v)[j] == op(Stretched(a.at[i], j), Stretched(v, j));
  }

  // ----- layers ---------------------------------------------------------------------------------

  function Zeros(n: nat): (x: Row)
    ensures |x| == n
  {
    seq(n, _ => 0.0)
  }

  // A layer that changes nothing but for its activation.
  function Relay(n: nat): Layer {
    Layer(Identity(n), Zeros(n))
  }

  lemma AddsNothing(m: Matrix)
    ensures WithRow(Plus(), m, Zeros(m.cols)) == Some(m)
  {
    WithRowFits(Plus(), m, Zeros(m.cols));
    var r := WithRow(Plus(), m, Zeros(m.cols)).value;
    forall i | 0 <= i < m.rows
      ensures r.at[i] == m.at[i]
    {
      forall j | 0 <= j < m.cols
        ensures r.at[i][j] == m.at[i][j]
      {
        WithRowAt(Plus(), m, Zeros(m.cols), i, j);
      }
    }
    assert r.at == m.at;
  }

  lemma RelayOut(act: Activation, h: Matrix, last: bool)
    ensures LayerOut(act, Relay(h.cols), h, last) == Some(if last then h else Map(act, h))
  {
    TimesIdentity(h);
    AddsNothing(h);
  }

  // n layers that change nothing: what is left is the activation, after each but the
  // last.
  function Activated(act: Activation, h: Matrix, n: nat): (m: Matrix)
    ensures m.rows == h.rows && m.cols == h.cols
    decreases n
  {
    if n == 0 then h else Activated(act, Map(act, h), n - 1)
  }

  function Relays(n: nat, width: nat): (ls: seq<Layer>)
    ensures |ls| == n
  {
    seq(n, _ => Relay(width))
  }

  lemma {:induction false} RelaysActivate(act: Activation, h: Matrix, n: nat)
    requires n > 0
    ensures Forward(act, Relays(n, h.cols), h) == Some(Activated(act, h, n - 1))
    decreases n
  {
    RelayOut(act, h, n == 1);
    assert Relays(n, h.cols)[1..] == Relays(n - 1, h.cols);
    if n > 1 {
      RelaysActivate(act, Map(act, h), n - 1);
    }
  }

  // One layer is a product and a bias, without an activation; so two bundles that differ
  // in the bias of their last layer differ by exactly that.
  lemma OneLayer(act: Activation, l: Layer, h: Matrix, i: nat, j: nat)
    requires h.cols == l.w.rows && |l.b| == l.w.cols && i < h.rows && j < l.w.cols
    ensures Forward(act, [l], h).Some?
    ensures var r := Forward(act, [l], h).value;
            r.rows == h.rows && r.cols == l.w.cols && r.at[i][j] == Dot(h.at[i], Column(l.w, j)) + l.b[j]
  {
    assert [l][1..] == [];
    WithRowFits(Plus(), MatMul(h, l.w).value, l.b);
    WithRowAt(Plus(), MatMul(h, l.w).value, l.b, i, j);
  }

  // ----- scaling and error ------------------------------------------------------------------------

  // Scaled readings are the readings in units of the training spread around the training
  // mean: scaling can be undone.
  lemma ScalingInverts(b: Bundle, x: Matrix, i: nat, j: nat)
    requires |b.mean| == |b.scale| == x.cols && i < x.rows && j < x.cols && b.scale[j] != 0.0
    ensures Scaled(b, x).Some? && Scaled(b, x).value.rows == x.rows && Scaled(b, x).value.cols == x.cols
    ensures Scaled(b, x).value.at[i][j] * b.scale[j] + b.mean[j] == x.at[i][j]
  {
    WithRowFits(Minus(), x, b.mean);
    var c := WithRow(Minus(), x, b.mean).value;
    WithRowFits(Over(), c, b.scale);
    WithRowAt(Minus(), x, b.mean, i, j);
    WithRowAt(Over(), c, b.scale, i, j);
    assert c.at[i][j] == x.at[i][j] - b.mean[j];
    Undone(c.at[i][j], b.scale[j]);
  }

  lemma Undone(x: real, s: real)
    requires s != 0.0
    ensures Over()(x, s) * s == x
  {
  }

  function Difference(x: Row, y: Row): (d: Row)
    requires |x| == |y|
    ensures |d| == |x|
  {
    Combined(1.0, x, -1.0, y)
  }

  lemma {:induction false} SquaresAreDot(d: Row)
    ensures Sum(RowMap(Square(), d)) == Dot(d, d)
  {
    if d != [] {
      SquaresAreDot(d[1..]);
      assert RowMap(Square(), d)[1..] == RowMap(Square(), d[1..]);
    }
  }

  lemma MeanTimesCount(x: Row)
    requires x != []
    ensures Mean(x) * (|x| as real) == Sum(x)
  {
  }

  lemma SubtractedRow(x: Row, y: Row)
    requires |x| == |y|
    ensures RowOp(Minus(), x, y) == Difference(x, y)
  {
    forall j | 0 <= j < |x|
      ensures RowOp(Minus(), x, y)[j] == Difference(x, y)[j]
    {
      assert Stretched(x, j) == x[j] && Stretched(y, j) == y[j];
    }
  }

  // The score of a row times the number of features is the squared length of what the
  // network failed to reconstruct.
  lemma ErrorIsSquaredLength(z: Matrix, recon: Matrix, i: nat)
    requires z.rows == recon.rows && z.cols == recon.cols > 0 && i < z.rows
    ensures ResidualErrors(z, recon).Some? && |ResidualErrors(z, recon).value| == z.rows
    ensures var d := Difference(z.at[i], recon.at[i]);
            ResidualErrors(z, recon).value[i] * (z.cols as real) == Dot(d, d)
  {
    var d := Difference(z.at[i], recon.at[i]);
    var r := Pairwise(Minus(), z, recon).value;
    assert r.at[i] == RowOp(Minus(), z.at[i], recon.at[i]);
    SubtractedRow(z.at[i], recon.at[i]);
    MeanTimesCount(RowMap(Square(), d));
    SquaresAreDot(d);
  }

  // ----- networks whose scores are known -------------------------------------------------------------

  lemma SameHasNoError(z: Matrix, i: nat)
    requires z.cols > 0 && i < z.rows
    ensures ResidualErrors(z, z).Some? && |ResidualErrors(z, z).value| == z.rows && ResidualErrors(z, z).value[i] == 0.0
  {
    ErrorIsSquaredLength(z, z, i);
    DotNothing(Difference(z.at[i], z.at[i]), Difference(z.at[i], z.at[i]));
    NoProduct(ResidualErrors(z, z).value[i], z.cols as real);
  }

  lemma NoProduct(x: real, n: real)
    requires n > 0.0 && x * n == 0.0
    ensures x == 0.0
  {
  }

  // A network that is one identity layer without a bias scores 0 on every reading,
  // whatever the activation.
  lemma IdentityScoresZero(act: Activation, b: Bundle, x: Matrix, i: nat)
    requires |b.mean| == |b.scale| == x.cols > 0 && b.weights == [Relay(x.cols)] && i < x.rows
    ensures ReconstructionErrors(act, b, x).Some? && |ReconstructionErrors(act, b, x).value| == x.rows
    ensures ReconstructionErrors(act, b, x).value[i] == 0.0
  {
    WithRowFits(Minus(), x, b.mean);
    WithRowFits(Over(), WithRow(Minus(), x, b.mean).value, b.scale);
    var z := Scaled(b, x).value;
    RelaysActivate(act, z, 1);
    assert Relays(1, x.cols) == b.weights;
    SameHasNoError(z, i);
  }

  // ----- verdicts ----------------------------------------------------------------------------------------

  // A reading is an anomaly exactly when its score is above the threshold or a scaled
  // feature is further from 0 than the guard; the reason says which of the two.
  lemma VerdictIff(act: Activation, b: Bundle, x: Row)
    requires ScoreSample(act, b, x).Some?
    ensures var s := ScoreSample(act, b, x).value;
            var z := Scaled(b, Single(x)).value.at[0];
            var model, limit := s.score > b.threshold, exists j :: 0 <= j < |z| && (z[j] > b.guard || z[j] < -b.guard);
            && ReconstructionErrors(act, b, Single(x)) == Some([s.score])
            && (s.anomaly <==> model || limit)
            && (s.reason == None <==> !model && !limit)
            && (s.reason == Some(Model) <==> model && !limit)
            && (s.reason == Some(Limit) <==> !model && limit)
            && (s.reason == Some(ModelAndLimit) <==> model && limit)
  {
    var z := Scaled(b, Single(x)).value.at[0];
    GuardIff(z, b.guard);
    var errors := ReconstructionErrors(act, b, Single(x)).value;
    assert errors == [errors[0]];
  }

  lemma GuardIff(z: Row, guard: real)
    requires z != []
    ensures MaxOf(RowMap(Abs, z)) > guard <==> exists j :: 0 <= j < |z| && (z[j] > guard || z[j] < -guard)
  {
    var a := RowMap(Abs, z);
    var m := MaxOf(a);
    if m > guard {
      var j :| 0 <= j < |a| && a[j] == m;
      assert a[j] == Abs(z[j]);
      assert z[j] > guard || z[j] < -guard;
    }
    if j :| 0 <= j < |z| && (z[j] > guard || z[j] < -guard) {
      assert a[j] == Abs(z[j]) > guard;
    }
  }

  // ----- the shape check ---------------------------------------------------------------------------------

  // The chain is in order exactly when no layer breaks it and the last one gives the
  // width asked for.
  lemma {:induction false} ChainOkIff(ls: seq<Layer>, dim: nat, out: nat)
    ensures ChainOk(ls, dim, out) <==>
      && (forall k :: 0 <= k < |ls| ==> !Breaks(ls, dim, k))
      && (if ls == [] then dim else ls[|ls| - 1].w.cols) == out
  {
    if ls != [] {
      var rest := ls[1..];
      ChainOkIff(rest, ls[0].w.cols, out);
      forall k | 1 <= k < |ls|
        ensures Breaks(ls, dim, k) <==> Breaks(rest, ls[0].w.cols, k - 1)
      {
      }
      if forall k :: 0 <= k < |ls| ==> !Breaks(ls, dim, k) {
        assert !Breaks(ls, dim, 0);
        assert forall k :: 0 <= k < |rest| ==> !Breaks(rest, ls[0].w.cols, k) by {
          forall k | 0 <= k < |rest| ensures !Breaks(rest, ls[0].w.cols, k) {
            assert !Breaks(ls, dim, k + 1);
          }
        }
      }
    }
  }
}
