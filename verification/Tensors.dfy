// Arrays of exact reals with NumPy's shape rules, as far as the scorer and the ONNX
// graph use them. None is a shape error.
module Tensors {
  import opened Wrappers

  type Row = seq<real>

  datatype Array2 = Array2(rows: nat, cols: nat, at: seq<Row>) {
    predicate Rectangular() {
      |at| == rows && forall i :: 0 <= i < rows ==> |at[i]| == cols
    }
  }

  type Matrix = m: Array2 | m.Rectangular() witness Array2(0, 0, [])

  function Dot(a: Row, b: Row): real
    requires |a| == |b|
  {
    if a == [] then 0.0 else a[0] * b[0] + Dot(a[1..], b[1..])
  }

  function Column(m: Matrix, j: nat): (c: Row)
    requires j < m.cols
    ensures |c| == m.rows
  {
    seq(m.rows, i requires 0 <= i < m.rows => m.at[i][j])
  }

  // One row times a matrix.
  function Through(x: Row, m: Matrix): (y: Row)
    requires |x| == m.rows
    ensures |y| == m.cols
  {
    seq(m.cols, j requires 0 <= j < m.cols => Dot(x, Column(m, j)))
  }

  function MatMul(a: Matrix, b: Matrix): Option<Matrix> {
    if a.cols != b.rows then None
    else Some(Array2(a.rows, b.cols, seq(a.rows, i requires 0 <= i < a.rows => Through(a.at[i], b))))
  }

  type Binary = (real, real) -> real

  function Plus(): Binary { (x: real, y: real) => x + y }
  function Minus(): Binary { (x: real, y: real) => x - y }
  function Times(): Binary { (x: real, y: real) => x * y }
  // Division by zero leaves the reals; it has no value here that anything depends on.
  function Over(): Binary { (x: real, y: real) => if y == 0.0 then 0.0 else x / y }

  // Two row lengths broadcast when they agree or one of them is 1.
  function Common(c: nat, d: nat): Option<nat> {
    if c == d then Some(c) else if d == 1 then Some(c) else if c == 1 then Some(d) else None
  }

  function Stretched(x: Row, j: nat): real
    requires |x| == 1 || j < |x|
  {
    if |x| == 1 then x[0] else x[j]
  }

  function RowOp(op: Binary, x: Row, y: Row): (z: Row)
    requires Common(|x|, |y|).Some?
    ensures |z| == Common(|x|, |y|).value
  {
    seq(Common(|x|, |y|).value, j requires 0 <= j < Common(|x|, |y|).value => op(Stretched(x, j), Stretched(y, j)))
  }

  // A vector combines with every row.
  function WithRow(op: Binary, a: Matrix, v: Row): Option<Matrix> {
    var c := Common(a.cols, |v|);
    if c.None? then None
    else Some(Array2(a.rows, c.value, seq(a.rows, i requires 0 <= i < a.rows => RowOp(op, a.at[i], v))))
  }

  // Two matrices with the same rows.
  function Pairwise(op: Binary, a: Matrix, b: Matrix): Option<Matrix> {
    var c := Common(a.cols, b.cols);
    if a.rows != b.rows || c.None? then None
    else Some(Array2(a.rows, c.value, seq(a.rows, i requires 0 <= i < a.rows => RowOp(op, a.at[i], b.at[i]))))
  }

  function RowMap(f: real -> real, x: Row): (y: Row)
    ensures |y| == |x|
  {
    seq(|x|, j requires 0 <= j < |x| => f(x[j]))
  }

  function Map(f: real -> real, a: Matrix): Matrix {
    Array2(a.rows, a.cols, seq(a.rows, i requires 0 <= i < a.rows => RowMap(f, a.at[i])))
  }

  function Sum(x: Row): real {
    if x == [] then 0.0 else x[0] + Sum(x[1..])
  }

  function Mean(x: Row): real
    requires x != []
  {
    Sum(x) / (|x| as real)
  }

  // The mean along axis 1, which exists when rows are not empty.
  function RowMeans(a: Matrix): Option<Row> {
    if a.cols == 0 then None else Some(seq(a.rows, i requires 0 <= i < a.rows => Mean(a.at[i])))
  }

  // A feature that was constant in training is not divided by its zero spread
  // (np.where(scale == 0, 1.0, scale), in the trainer and in the drift tracker).
  function Repaired(scale: Row): (r: Row)
    ensures |r| == |scale| && forall i :: 0 <= i < |r| ==> r[i] == (if scale[i] == 0.0 then 1.0 else scale[i])
    ensures forall i :: 0 <= i < |r| ==> r[i] != 0.0
  {
    seq(|scale|, i requires 0 <= i < |scale| => if scale[i] == 0.0 then 1.0 else scale[i])
  }

  // A batch of one row.
  function Single(x: Row): Matrix {
    Array2(1, |x|, [x])
  }

  lemma {:induction false} SumAppend(a: Row, b: Row)
    ensures Sum(a + b) == Sum(a) + Sum(b)
  {
    if a == [] {
      assert a + b == b;
    } else {
      SumAppend(a[1..], b);
      assert (a + b)[1..] == a[1..] + b;
    }
  }

  lemma {:induction false} ConstantSum(x: Row, c: real)
    requires forall i :: 0 <= i < |x| ==> x[i] == c
    ensures Sum(x) == c * (|x| as real)
  {
    if x != [] {
      ConstantSum(x[1..], c);
    }
  }

  lemma ConstantMean(x: Row, c: real)
    requires x != [] && forall i :: 0 <= i < |x| ==> x[i] == c
    ensures Mean(x) == c
  {
    ConstantSum(x, c);
    assert c * (|x| as real) / (|x| as real) == c;
  }
}
