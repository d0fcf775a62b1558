// Drift of live readings from the training distribution (inference/drift.py): the
// rolling window kept in a ring buffer, and the two signals derived from it. Numbers
// are exact reals; the logarithm and the normal distribution function are parameters.
module Drift {
  import opened Wrappers
  import opened Tallies
  import opened Tensors

  const INNER_BINS: nat := 10
  const EPS := 0.0001

  // ----- bins -------------------------------------------------------------------------

  datatype Sample = Finite(z: real) | PlusInf | MinusInf | NotANumber

  // Eleven edges, evenly spaced from -4 to 4.
  function Edge(k: nat): real
    requires k <= INNER_BINS
  {
    -4.0 + 8.0 * (k as real) / 10.0
  }

  // Bins 1 to 10 are half open; the tails are open-ended, and the last one is closed
  // at infinity.
  predicate InBin(s: Sample, k: nat)
    requires k <= INNER_BINS + 1
  {
    match s
    case NotANumber => false
    case MinusInf => k == 0
    case PlusInf => k == INNER_BINS + 1
    case Finite(z) => (k == 0 || Edge(k - 1) <= z) && (k == INNER_BINS + 1 || z < Edge(k))
  }

  function Falls(k: nat): Sample -> nat
    requires k <= INNER_BINS + 1
  {
    (s: Sample) => if InBin(s, k) then 1 else 0
  }

  // np.histogram
  function Histogram(samples: seq<Sample>): (counts: seq<nat>)
    ensures |counts| == INNER_BINS + 2
  {
    seq(INNER_BINS + 2, k requires 0 <= k < INNER_BINS + 2 => Total(Falls(k), samples))
  }

  function SumNat(s: seq<nat>): nat {
    if s == [] then 0 else s[0] + SumNat(s[1..])
  }

  // ----- population stability index -----------------------------------------------------

  type Function = real -> real

  function Max(x: real, y: real): real {
    if x < y then y else x
  }

  function ExpectedMass(cdf: Function, k: nat): real
    requires k <= INNER_BINS + 1
  {
    if k == 0 then cdf(Edge(0))
    else if k <= INNER_BINS then cdf(Edge(k)) - cdf(Edge(k - 1))
    else 1.0 - cdf(Edge(INNER_BINS))
  }

  function ExpectedMasses(cdf: Function): Row {
    seq(INNER_BINS + 2, k requires 0 <= k < INNER_BINS + 2 => ExpectedMass(cdf, k))
  }

  function Floored(x: Row): Row {
    seq(|x|, k requires 0 <= k < |x| => Max(x[k], EPS))
  }

  function Fraction(count: nat, size: nat): real
    requires size > 0
  {
    (count as real) / (size as real)
  }

  function Shares(samples: seq<Sample>): (shares: Row)
    ensures |shares| == INNER_BINS + 2
  {
    var size := if samples == [] then 1 else |samples|;
    seq(INNER_BINS + 2, k requires 0 <= k < INNER_BINS + 2 => Fraction(Histogram(samples)[k], size))
  }

  function Quotient(x: real, y: real): real {
    if y == 0.0 then 0.0 else x / y
  }

  function Term(ln: Function, actual: real, expected: real): real {
    (actual - expected) * ln(Quotient(actual, expected))
  }

  function Divergence(ln: Function, actual: Row, expected: Row): real
    requires |actual| == |expected|
  {
    if actual == [] then 0.0
    else Term(ln, actual[0], expected[0]) + Divergence(ln, actual[1..], expected[1..])
  }

  function Psi(ln: Function, cdf: Function, samples: seq<Sample>): real {
    Divergence(ln, Floored(Shares(samples)), Floored(ExpectedMasses(cdf)))
  }

  // ----- signals of a list of readings --------------------------------------------------

  datatype Signal = Signal(zshift: real, psi: real)

  // Feature f of the readings, standardised.
  function Standardised(readings: seq<Row>, f: nat, mean: real, scale: real): (z: Row)
    requires scale != 0.0
    requires forall i :: 0 <= i < |readings| ==> f < |readings[i]|
    ensures |z| == |readings|
  {
    seq(|readings|, i requires 0 <= i < |readings| => (readings[i][f] - mean) / scale)
  }

  function Samples(z: Row): seq<Sample> {
    seq(|z|, i requires 0 <= i < |z| => Finite(z[i]))
  }

  function SignalOf(ln: Function, cdf: Function, z: Row): Signal
    requires z != []
  {
    Signal(Mean(z), Psi(ln, cdf, Samples(z)))
  }

  predicate AllOfWidth(readings: seq<Row>, width: nat) {
    forall i :: 0 <= i < |readings| ==> |readings[i]| == width
  }

  // Training statistics that NumPy can subtract from rows of that width and divide
  // them by, with a column left for every feature. Rows may be stretched: nothing
  // checks that a reset brings statistics of the features it was built with.
  predicate Matching(width: nat, mean: Row, scale: Row) {
    && Common(width, |mean|).Some?
    && Common(Common(width, |mean|).value, |scale|).Some?
    && width <= Common(Common(width, |mean|).value, |scale|).value
  }

  predicate NoneZero(scale: Row) {
    forall i :: 0 <= i < |scale| ==> scale[i] != 0.0
  }

  // One signal per feature.
  function SignalsOf(ln: Function, cdf: Function, readings: seq<Row>, width: nat, mean: Row, scale: Row): seq<Signal>
    requires readings != [] && Matching(width, mean, scale) && AllOfWidth(readings, width) && NoneZero(scale)
  {
    seq(width, f requires 0 <= f < width =>
      SignalOf(ln, cdf, Standardised(readings, f, Stretched(mean, f), Stretched(scale, f))))
  }

  // The most recent readings, oldest first.
  function Recent<T>(log: seq<T>, window: nat): (r: seq<T>)
    ensures |r| == (if |log| < window then |log| else window) && r == log[|log| - |r|..]
  {
    if |log| <= window then log else log[|log| - window..]
  }

  // ----- order does not matter ----------------------------------------------------------

  lemma SwappedHistogram(a: seq<Sample>, b: seq<Sample>)
    ensures Histogram(a + b) == Histogram(b + a)
  {
    forall k | 0 <= k < INNER_BINS + 2
      ensures Histogram(a + b)[k] == Histogram(b + a)[k]
    {
      TotalAppend(Falls(k), a, b);
      TotalAppend(Falls(k), b, a);
    }
  }

  lemma SwappedSignal(ln: Function, cdf: Function, a: Row, b: Row)
    requires a + b != []
    ensures b + a != [] && SignalOf(ln, cdf, a + b) == SignalOf(ln, cdf, b + a)
  {
    assert |b + a| == |a + b| > 0;
    SumAppend(a, b);
    SumAppend(b, a);
    assert Samples(a + b) == Samples(a) + Samples(b);
    assert Samples(b + a) == Samples(b) + Samples(a);
    SwappedHistogram(Samples(a), Samples(b));
    assert Shares(Samples(a + b)) == Shares(Samples(b + a));
  }

  // Both signals of a window and of its rotation are equal.
  lemma RotatedSignals(
    ln: Function, cdf: Function, a: seq<Row>, b: seq<Row>, width: nat, mean: Row, scale: Row)
    requires a + b != [] && Matching(width, mean, scale) && AllOfWidth(a, width) && AllOfWidth(b, width) && NoneZero(scale)
    ensures b + a != []
    ensures SignalsOf(ln, cdf, a + b, width, mean, scale) == SignalsOf(ln, cdf, b + a, width, mean, scale)
  {
    assert |b + a| == |a + b| > 0;
    var s, t := SignalsOf(ln, cdf, a + b, width, mean, scale), SignalsOf(ln, cdf, b + a, width, mean, scale);
    forall f | 0 <= f < width
      ensures s[f] == t[f]
    {
      var m, d := Stretched(mean, f), Stretched(scale, f);
      var x, y := Standardised(a, f, m, d), Standardised(b, f, m, d);
      assert Standardised(a + b, f, m, d) == x + y;
      assert Standardised(b + a, f, m, d) == y + x;
      SwappedSignal(ln, cdf, x, y);
    }
  }

  // ----- the ring ------------------------------------------------------------------------

  // Row k % window holds reading k, for each of the last `window` readings.
  predicate Holds<T(==)>(buf: seq<T>, log: seq<T>, window: nat)
    requires window > 0
  {
    && |buf| == window
    && forall k :: 0 <= k < |log| && |log| - window <= k ==> buf[k % window] == log[k]
  }

  lemma {:induction false} Times(w: int, a: int, b: int)
    requires w > 0 && a < b
    ensures w * a + w <= w * b
    decreases b - a
  {
    assert w * b == w * (b - 1) + w;
    if a + 1 < b {
      Times(w, a, b - 1);
    }
  }

  // Quotient and remainder are determined by the number.
  lemma DivisionUnique(w: nat, q: int, r: nat, q': int, r': nat)
    requires r < w && r' < w && w * q + r == w * q' + r'
    ensures q == q' && r == r'
  {
    if q < q' {
      Times(w, q, q');
    } else if q' < q {
      Times(w, q', q);
    }
  }

  lemma ResidueOf(x: nat, q: int, j: nat, w: nat)
    requires j < w && x == w * q + j
    ensures x % w == j
  {
    DivisionUnique(w, x / w, x % w, q, j);
  }

  lemma DifferentRows(k: nat, n: nat, w: nat)
    requires w > 0 && n - w < k < n
    ensures k % w != n % w
  {
    if k % w == n % w {
      var p, q := k / w, n / w;
      assert k == w * p + k % w && n == w * q + n % w;
      DivisionUnique(w, p, n - k, q, 0);
    }
  }

  lemma WriteHolds<T>(buf: seq<T>, log: seq<T>, window: nat, x: T)
    requires window > 0 && Holds(buf, log, window)
    ensures Holds(buf[|log| % window := x], log + [x], window)
  {
    var n := |log|;
    forall k | 0 <= k < n + 1 && n + 1 - window <= k
      ensures buf[n % window := x][k % window] == (log + [x])[k]
    {
      if k < n {
        DifferentRows(k, n, window);
      }
    }
  }

  // Which reading a row holds once the ring is full.
  lemma RowHolds<T>(buf: seq<T>, log: seq<T>, window: nat, j: nat)
    requires window > 0 && Holds(buf, log, window) && |log| > window && j < window
    ensures var r := |log| % window;
      buf[j] == if j < r then log[|log| - r + j] else log[|log| - r - window + j]
  {
    var n, r, q := |log|, |log| % window, |log| / window;
    assert n == window * q + r;
    if j < r {
      ResidueOf(n - r + j, q, j, window);
    } else {
      assert window * (q - 1) == window * q - window;
      ResidueOf(n - r - window + j, q - 1, j, window);
    }
  }

  lemma SplitRows<T>(buf: seq<T>, log: seq<T>, window: nat, r: nat)
    requires r < window < |log| && |buf| == window
    requires forall j :: 0 <= j < window ==>
      buf[j] == if j < r then log[|log| - r + j] else log[|log| - r - window + j]
    ensures log[|log| - window..] == log[|log| - window..|log| - r] + log[|log| - r..]
    ensures buf == log[|log| - r..] + log[|log| - window..|log| - r]
  {
  }

  lemma FirstLap<T>(buf: seq<T>, log: seq<T>, window: nat)
    requires window > 0 && Holds(buf, log, window) && |log| <= window
    ensures buf[..|log|] == log
  {
    forall k | 0 <= k < |log|
      ensures buf[k] == log[k]
    {
      ResidueOf(k, 0, k, window);
    }
  }

  // The used rows are the recent readings, rotated.
  lemma Rotation<T>(buf: seq<T>, log: seq<T>, window: nat) returns (a: seq<T>, b: seq<T>)
    requires window > 0 && Holds(buf, log, window)
    ensures Recent(log, window) == a + b
    ensures buf[..if |log| < window then |log| else window] == b + a
  {
    if |log| <= window {
      FirstLap(buf, log, window);
      a, b := [], log;
    } else {
      var r := |log| % window;
      forall j | 0 <= j < window
        ensures buf[j] == if j < r then log[|log| - r + j] else log[|log| - r - window + j]
      {
        RowHolds(buf, log, window, j);
      }
      SplitRows(buf, log, window, r);
      a, b := log[|log| - window..|log| - r], log[|log| - r..];
    }
  }

  // ----- the tracker ----------------------------------------------------------------------

  // NumPy stores a reading of the right length, or one number in every column.
  function Fitted(x: Row, width: nat): Option<Row> {
    if |x| == width then Some(x) else if |x| == 1 then Some(seq(width, _ => x[0])) else None
  }

  // NotNumbers: with a minimum below one, the means of no readings at all. Mismatch: the
  // statistics do not match the features, and the request raises.
  datatype Outcome = NotYet | NotNumbers | Mismatch | Ready(of: seq<Signal>)

  class DriftTracker {
    const width: nat         // number of features
    const window: nat
    const minSamples: int
    var mean: Row
    var scale: Row
    var buf: array<Row>
    var n: nat               // readings since the start or the last reset
    ghost var log: seq<Row>  // those readings

    ghost predicate Valid()
      reads this, buf
    {
      && window > 0 && minSamples <= window
      && n == |log|
      && Holds(buf[..], log, window)
      && AllOfWidth(log, width)
      && NoneZero(scale)
    }

    constructor (features: nat, trainMean: Row, trainScale: Row, requestedWindow: int, requestedMinimum: int)
      ensures Valid() && fresh(buf) && log == []
      ensures window == (if requestedWindow < 1 then 1 else requestedWindow)
      ensures minSamples == if requestedMinimum < window then requestedMinimum else window
      ensures width == features && mean == trainMean && scale == Repaired(trainScale)
    {
      width := features;
      window := if requestedWindow < 1 then 1 else requestedWindow;
      minSamples :=
        if requestedMinimum < (if requestedWindow < 1 then 1 else requestedWindow) then requestedMinimum
        else (if requestedWindow < 1 then 1 else requestedWindow);
      mean := trainMean;
      scale := Repaired(trainScale);
      buf := new Row[if requestedWindow < 1 then 1 else requestedWindow](_ => seq(features, _ => 0.0));
      n := 0;
      log := [];
    }

    // A reading of the wrong length raises and leaves the window as it was.
    method Observe(x: Row) returns (ok: bool)
      requires Valid()
      modifies this`n, this`log, buf
      ensures Valid() && buf == old(buf)
      ensures ok <==> |x| == width || |x| == 1
      ensures !ok ==> log == old(log)
      ensures |x| == width ==> log == old(log) + [x]
      ensures |x| == 1 && width != 1 ==> log == old(log) + [seq(width, _ => x[0])]
    {
      var row := Fitted(x, width);
      if row.None? {
        return false;
      }
      WriteHolds(buf[..], log, window, row.value);
      buf[n % window] := row.value;
      n := n + 1;
      log := log + [row.value];
      return true;
    }

    // Whatever was seen before is forgotten; either parameter may stay as it was. The
    // features stay, and statistics of any length are stored.
    method Reset(trainMean: Option<Row>, trainScale: Option<Row>)
      requires Valid()
      modifies this`mean, this`scale, this`n, this`log
      ensures Valid() && log == []
      ensures mean == if trainMean.Some? then trainMean.value else old(mean)
      ensures scale == if trainScale.Some? then Repaired(trainScale.value) else old(scale)
    {
      if trainMean.Some? {
        mean := trainMean.value;
      }
      if trainScale.Some? {
        scale := Repaired(trainScale.value);
      }
      n := 0;
      log := [];
    }

    // Nothing until the window holds enough readings; then what the same readings in a
    // plain list, oldest first, would give.
    method Signals(ln: Function, cdf: Function) returns (r: Outcome)
      requires Valid()
      ensures r == NotYet <==> |Recent(log, window)| < minSamples
      ensures r == NotNumbers <==> minSamples <= 0 && log == [] && Matching(width, mean, scale)
      ensures r == Mismatch <==> |Recent(log, window)| >= minSamples && !Matching(width, mean, scale)
      ensures AllOfWidth(Recent(log, window), width)
      ensures r.Ready? ==>
        log != [] && Matching(width, mean, scale)
        && r.of == SignalsOf(ln, cdf, Recent(log, window), width, mean, scale)
    {
      WidthOfParts(Recent(log, window), [], Recent(log, window), width);
      var size := if n < window then n else window;
      if size < minSamples {
        return NotYet;
      }
      if !Matching(width, mean, scale) {
        return Mismatch;
      }
      if size == 0 {
        return NotNumbers;
      }
      var data := buf[..size];
      ghost var a, b := Rotation(buf[..], log, window);
      assert data == b + a;
      WidthOfParts(a, b, Recent(log, window), width);
      RotatedSignals(ln, cdf, a, b, width, mean, scale);
      r := Ready(SignalsOf(ln, cdf, data, width, mean, scale));
    }
  }

  lemma WidthOfParts(a: seq<Row>, b: seq<Row>, whole: seq<Row>, width: nat)
    requires whole == a + b && AllOfWidth(whole, width)
    ensures AllOfWidth(a, width) && AllOfWidth(b, width) && AllOfWidth(b + a, width)
  {
    assert forall i :: 0 <= i < |a| ==> a[i] == whole[i];
    assert forall i :: 0 <= i < |b| ==> b[i] == whole[|a| + i];
  }
}
