// What the reduction to windows preserves.
module WindowsProofs {
  import opened Tensors
  import opened Windows

  // ----- the windows tile the signal ----------------------------------------------------------

  function Joined(x: Row, size: nat, n: nat): Row
    requires Multiple(n, size) <= |x|
  {
    if n == 0 then [] else Joined(x, size, n - 1) + x[Multiple(n - 1, size)..Multiple(n - 1, size) + size]
  }

  // The windows of a channel, one after the other, are its beginning: no sample is in two
  // windows, and none before the last window is left out.
  lemma {:induction false} WindowsTile(x: Row, size: nat, n: nat)
    requires n * size <= |x|
    ensures Multiple(n, size) == n * size && Joined(x, size, n) == x[..n * size]
  {
    MultipleIs(n, size);
    Tiled(x, size, n);
  }

  lemma {:induction false} Tiled(x: Row, size: nat, n: nat)
    requires Multiple(n, size) <= |x|
    ensures Joined(x, size, n) == x[..Multiple(n, size)]
  {
    if n > 0 {
      Tiled(x, size, n - 1);
    }
  }

  // Of the shortest signal, fewer samples are dropped than one window holds.
  lemma FewDropped(vib: seq<Row>, temp: seq<Row>, cur: seq<Row>, size: nat)
    requires size > 0 && vib != [] && temp != [] && cur != []
    ensures var shortest := Min(|vib[0]|, Min(|temp[0]|, |cur[0]|));
      var kept := Multiple(WindowCount(vib, temp, cur, size), size);
      kept <= shortest < kept + size
  {
    WindowsFit(Min(|vib[0]|, Min(|temp[0]|, |cur[0]|)), size);
  }

  // ----- totals -------------------------------------------------------------------------------

  // f summed over the first k samples of every channel, and over one window of each.
  function Kept(f: Function, arrays: seq<Row>, k: nat): real
    requires Reach(arrays, k)
  {
    if arrays == [] then 0.0 else Sum(RowMap(f, arrays[0][..k])) + Kept(f, arrays[1..], k)
  }

  function InWindow(f: Function, arrays: seq<Row>, from: nat, to: nat): real
    requires from <= to && Reach(arrays, to)
  {
    if arrays == [] then 0.0 else Sum(RowMap(f, arrays[0][from..to])) + InWindow(f, arrays[1..], from, to)
  }

  lemma MapAppend(f: Function, a: Row, b: Row)
    ensures Sum(RowMap(f, a + b)) == Sum(RowMap(f, a)) + Sum(RowMap(f, b))
  {
    SumAppend(RowMap(f, a), RowMap(f, b));
    assert RowMap(f, a + b) == RowMap(f, a) + RowMap(f, b);
  }

  lemma MapHead(f: Function, x: Row)
    requires x != []
    ensures Sum(RowMap(f, x)) == f(x[0]) + Sum(RowMap(f, x[1..]))
  {
    assert RowMap(f, x)[1..] == RowMap(f, x[1..]);
  }

  lemma {:induction false} PooledTotal(f: Function, arrays: seq<Row>, from: nat, to: nat)
    requires from <= to && Reach(arrays, to)
    ensures Sum(RowMap(f, Pooled(arrays, from, to))) == InWindow(f, arrays, from, to)
  {
    if arrays != [] {
      PooledTotal(f, arrays[1..], from, to);
      MapAppend(f, arrays[0][from..to], Pooled(arrays[1..], from, to));
    }
  }

  lemma {:induction false} KeptGrows(f: Function, arrays: seq<Row>, from: nat, to: nat)
    requires from <= to && Reach(arrays, to)
    ensures Kept(f, arrays, to) == Kept(f, arrays, from) + InWindow(f, arrays, from, to)
  {
    if arrays != [] {
      KeptGrows(f, arrays[1..], from, to);
      MapAppend(f, arrays[0][..from], arrays[0][from..to]);
      assert arrays[0][..from] + arrays[0][from..to] == arrays[0][..to];
    }
  }

  lemma {:induction false} KeptNothing(f: Function, arrays: seq<Row>)
    ensures Kept(f, arrays, 0) == 0.0
  {
    if arrays != [] {
      KeptNothing(f, arrays[1..]);
      assert RowMap(f, arrays[0][..0]) == [];
    }
  }

  lemma MeanTotal(x: Row, n: nat)
    requires x != [] && n == |x|
    ensures Mean(x) * (n as real) == Sum(x)
  {
  }

  // ----- energy -------------------------------------------------------------------------------

  predicate RootOf(sqrt: Function, x: real) {
    sqrt(x) >= 0.0 && sqrt(x) * sqrt(x) == x
  }

  ghost predicate SquareRoot(sqrt: Function) {
    forall x :: x >= 0.0 ==> RootOf(sqrt, x)
  }

  lemma {:induction false} NonNegativeSum(f: Function, x: Row)
    requires forall a :: f(a) >= 0.0
    ensures Sum(RowMap(f, x)) >= 0.0
  {
    if x != [] {
      NonNegativeSum(f, x[1..]);
      MapHead(f, x);
    }
  }

  lemma SquaresNonNegative()
    ensures forall a :: Square()(a) >= 0.0
  {
    forall a: real
      ensures Square()(a) >= 0.0
    {
      assert a * a >= 0.0;
    }
  }

  lemma MeanNonNegative(x: Row)
    requires x != [] && Sum(x) >= 0.0
    ensures Mean(x) >= 0.0
  {
    var q, n := Mean(x), |x| as real;
    assert q * n == Sum(x);
  }

  lemma RmsSquared(sqrt: Function, x: Row)
    requires SquareRoot(sqrt) && x != []
    ensures Rms(sqrt, x) >= 0.0
    ensures Rms(sqrt, x) * Rms(sqrt, x) == Mean(RowMap(Square(), x))
  {
    SquaresNonNegative();
    NonNegativeSum(Square(), x);
    MeanNonNegative(RowMap(Square(), x));
    assert RootOf(sqrt, Mean(RowMap(Square(), x)));
  }

  // The energy of a number of samples at one level: its square, times the number.
  function Energy(level: real, samples: nat): real {
    if samples == 0 then 0.0 else level * level + Energy(level, samples - 1)
  }

  lemma {:induction false} EnergyIs(level: real, samples: nat)
    ensures Energy(level, samples) == level * level * (samples as real)
  {
    if samples > 0 {
      EnergyIs(level, samples - 1);
      OneMoreTime(level * level, samples - 1);
    }
  }

  lemma OneMoreTime(a: real, n: nat)
    ensures a * ((n + 1) as real) == a + a * (n as real)
  {
  }

  lemma EnergyOfMean(level: real, mean: real, total: real, samples: nat)
    requires level * level == mean && mean * (samples as real) == total
    ensures Energy(level, samples) == total
  {
    EnergyIs(level, samples);
  }

  lemma LevelEnergy(level: real, squares: Row)
    requires squares != [] && level * level == Mean(squares)
    ensures Energy(level, |squares|) == Sum(squares)
  {
    MeanTotal(squares, |squares|);
    EnergyOfMean(level, Mean(squares), Sum(squares), |squares|);
  }

  lemma RmsEnergy(sqrt: Function, x: Row)
    requires SquareRoot(sqrt) && x != []
    ensures Energy(Rms(sqrt, x), |x|) == Sum(RowMap(Square(), x))
  {
    RmsSquared(sqrt, x);
    LevelEnergy(Rms(sqrt, x), RowMap(Square(), x));
  }

  // The vibration of a window accounts for its energy.
  lemma WindowEnergy(sqrt: Function, vib: seq<Row>, from: nat, size: nat)
    requires SquareRoot(sqrt) && size > 0 && vib != [] && Reach(vib, from + size)
    ensures Pooled(vib, from, from + size) != []
    ensures Energy(Rms(sqrt, Pooled(vib, from, from + size)), Multiple(|vib|, size)) == InWindow(Square(), vib, from, from + size)
  {
    PooledSomething(vib, from, from + size);
    RmsEnergy(sqrt, Pooled(vib, from, from + size));
    PooledLength(vib, from, size);
    PooledTotal(Square(), vib, from, from + size);
  }

  function TotalEnergy(levels: Row, samples: nat): real {
    if levels == [] then 0.0
    else TotalEnergy(levels[..|levels| - 1], samples) + Energy(levels[|levels| - 1], samples)
  }

  lemma EnergyStep(whole: Row, levels: Row, level: real, vib: seq<Row>, from: nat, size: nat, samples: nat)
    requires whole == levels + [level] && Reach(vib, from + size)
    requires TotalEnergy(levels, samples) == Kept(Square(), vib, from)
    requires Energy(level, samples) == InWindow(Square(), vib, from, from + size)
    ensures TotalEnergy(whole, samples) == Kept(Square(), vib, from + size)
  {
    assert whole[..|levels|] == levels;
    KeptGrows(Square(), vib, from, from + size);
  }

  // Level w stands for the energy of window w.
  predicate Accounts(levels: Row, vib: seq<Row>, size: nat, samples: nat, w: nat)
    requires w < |levels|
  {
    && Reach(vib, Multiple(w, size) + size)
    && Energy(levels[w], samples) == InWindow(Square(), vib, Multiple(w, size), Multiple(w, size) + size)
  }

  lemma {:induction false} EnergyAdds(levels: Row, vib: seq<Row>, size: nat, samples: nat)
    requires Reach(vib, Multiple(|levels|, size))
    requires forall w :: 0 <= w < |levels| ==> Accounts(levels, vib, size, samples, w)
    ensures TotalEnergy(levels, samples) == Kept(Square(), vib, Multiple(|levels|, size))
  {
    if levels == [] {
      KeptNothing(Square(), vib);
    } else {
      var last := |levels| - 1;
      forall w | 0 <= w < last
        ensures Accounts(levels[..last], vib, size, samples, w)
      {
        assert Accounts(levels, vib, size, samples, w);
      }
      EnergyAdds(levels[..last], vib, size, samples);
      assert Accounts(levels, vib, size, samples, last);
      EnergyStep(levels, levels[..last], levels[last], vib, Multiple(last, size), size, samples);
    }
  }

  lemma VibrationGrows(sqrt: Function, vib: seq<Row>, size: nat, n: nat, from: nat)
    requires size > 0 && vib != [] && n > 0 && Reach(vib, Multiple(n, size)) && from == Multiple(n - 1, size)
    ensures Reach(vib, from + size) && Pooled(vib, from, from + size) != []
    ensures VibrationColumn(sqrt, vib, size, n)
            == VibrationColumn(sqrt, vib, size, n - 1) + [Rms(sqrt, Pooled(vib, from, from + size))]
  {
    PooledSomething(vib, from, from + size);
  }

  lemma {:induction false} VibrationAt(sqrt: Function, vib: seq<Row>, size: nat, n: nat, w: nat, from: nat)
    requires size > 0 && vib != [] && w < n && Reach(vib, Multiple(n, size)) && from == Multiple(w, size)
    ensures Reach(vib, from + size) && Pooled(vib, from, from + size) != []
    ensures VibrationColumn(sqrt, vib, size, n)[w] == Rms(sqrt, Pooled(vib, from, from + size))
    decreases n
  {
    if w < n - 1 {
      VibrationAt(sqrt, vib, size, n - 1, w, from);
      VibrationGrows(sqrt, vib, size, n, Multiple(n - 1, size));
    } else {
      VibrationGrows(sqrt, vib, size, n, from);
    }
  }

  lemma LevelAccounts(sqrt: Function, vib: seq<Row>, size: nat, samples: nat, levels: Row, w: nat, from: nat)
    requires SquareRoot(sqrt) && size > 0 && vib != [] && samples == Multiple(|vib|, size)
    requires w < |levels| && from == Multiple(w, size) && Reach(vib, from + size)
    requires Pooled(vib, from, from + size) != [] && levels[w] == Rms(sqrt, Pooled(vib, from, from + size))
    ensures Accounts(levels, vib, size, samples, w)
  {
    WindowEnergy(sqrt, vib, from, size);
  }

  lemma LevelAt(sqrt: Function, vib: seq<Row>, size: nat, n: nat, w: nat)
    requires SquareRoot(sqrt) && size > 0 && vib != [] && w < n && Reach(vib, Multiple(n, size))
    ensures Accounts(VibrationColumn(sqrt, vib, size, n), vib, size, Multiple(|vib|, size), w)
  {
    var from, levels := Multiple(w, size), VibrationColumn(sqrt, vib, size, n);
    VibrationAt(sqrt, vib, size, n, w, from);
    LevelAccounts(sqrt, vib, size, Multiple(|vib|, size), levels, w, from);
  }

  // Energy is conserved: the squared vibration of each window, times the number of axes
  // and the size of a window, add up to the squared samples that were kept.
  lemma EnergyConserved(sqrt: Function, vib: seq<Row>, size: nat, n: nat)
    requires SquareRoot(sqrt) && size > 0 && vib != [] && Reach(vib, Multiple(n, size))
    ensures TotalEnergy(VibrationColumn(sqrt, vib, size, n), Multiple(|vib|, size))
            == Kept(Square(), vib, Multiple(n, size))
  {
    forall w | 0 <= w < n
      ensures Accounts(VibrationColumn(sqrt, vib, size, n), vib, size, Multiple(|vib|, size), w)
    {
      LevelAt(sqrt, vib, size, n, w);
    }
    EnergyAdds(VibrationColumn(sqrt, vib, size, n), vib, size, Multiple(|vib|, size));
  }

  // ----- constant signals ---------------------------------------------------------------------

  predicate Constant(arrays: seq<Row>, c: real) {
    forall i, j :: 0 <= i < |arrays| && 0 <= j < |arrays[i]| ==> arrays[i][j] == c
  }

  lemma {:induction false} ConstantPool(arrays: seq<Row>, from: nat, to: nat, c: real)
    requires from <= to && Reach(arrays, to) && Constant(arrays, c)
    ensures forall i :: 0 <= i < |Pooled(arrays, from, to)| ==> Pooled(arrays, from, to)[i] == c
  {
    if arrays != [] {
      ConstantPool(arrays[1..], from, to, c);
    }
  }

  lemma RootOfSquare(sqrt: Function, c: real)
    requires SquareRoot(sqrt) && c >= 0.0
    ensures sqrt(c * c) == c
  {
    var r := sqrt(c * c);
    assert c * c >= 0.0;
    assert RootOf(sqrt, c * c);
    SameSquare(r, c);
  }

  lemma ProductPositive(a: real, b: real)
    requires a > 0.0 && b > 0.0
    ensures a * b > 0.0
  {
  }

  lemma SquareOrder(a: real, b: real)
    requires 0.0 <= a < b
    ensures a * a < b * b
  {
    ProductPositive(b - a, b + a);
    assert (b - a) * (b + a) == b * b - a * a;
  }

  lemma SameSquare(r: real, c: real)
    requires r >= 0.0 && c >= 0.0 && r * r == c * c
    ensures r == c
  {
    if r < c {
      SquareOrder(r, c);
    } else if c < r {
      SquareOrder(c, r);
    }
  }

  lemma ConstantRms(sqrt: Function, x: Row, c: real)
    requires SquareRoot(sqrt) && c >= 0.0 && x != [] && forall i :: 0 <= i < |x| ==> x[i] == c
    ensures Rms(sqrt, x) == c
  {
    ConstantMean(RowMap(Square(), x), c * c);
    RootOfSquare(sqrt, c);
  }

  lemma ConstantVibration(sqrt: Function, vib: seq<Row>, size: nat, n: nat, v: real)
    requires SquareRoot(sqrt) && size > 0 && vib != [] && Reach(vib, Multiple(n, size))
    requires v >= 0.0 && Constant(vib, v)
    ensures forall w :: 0 <= w < n ==> VibrationColumn(sqrt, vib, size, n)[w] == v
  {
    forall w | 0 <= w < n
      ensures VibrationColumn(sqrt, vib, size, n)[w] == v
    {
      VibrationAt(sqrt, vib, size, n, w, Multiple(w, size));
      ConstantWindow(sqrt, vib, Multiple(w, size), size, v);
    }
  }

  lemma ConstantWindow(sqrt: Function, vib: seq<Row>, from: nat, size: nat, v: real)
    requires SquareRoot(sqrt) && size > 0 && vib != [] && Reach(vib, from + size)
    requires v >= 0.0 && Constant(vib, v)
    ensures Pooled(vib, from, from + size) != [] && Rms(sqrt, Pooled(vib, from, from + size)) == v
  {
    PooledSomething(vib, from, from + size);
    ConstantPool(vib, from, from + size, v);
    ConstantRms(sqrt, Pooled(vib, from, from + size), v);
  }

  lemma {:induction false} ConstantTemperature(temp: seq<Row>, size: nat, n: nat, t: real)
    requires size > 0 && temp != [] && Reach(temp, Multiple(n, size)) && Constant(temp, t)
    ensures forall w :: 0 <= w < n ==> TemperatureColumn(temp, size, n)[w] == t
  {
    if n > 0 {
      var from := Multiple(n - 1, size);
      ConstantTemperature(temp, size, n - 1, t);
      PooledSomething(temp, from, from + size);
      ConstantPool(temp, from, from + size, t);
      ConstantMean(Pooled(temp, from, from + size), t);
    }
  }

  lemma ConstantEach(sqrt: Function, cur: seq<Row>, from: nat, size: nat, i: real)
    requires SquareRoot(sqrt) && size > 0 && cur != [] && Reach(cur, from + size)
    requires i >= 0.0 && Constant(cur, i)
    ensures Mean(RmsOfEach(sqrt, cur, from, from + size)) == i
  {
    var each := RmsOfEach(sqrt, cur, from, from + size);
    forall c | 0 <= c < |cur|
      ensures each[c] == i
    {
      ConstantRms(sqrt, cur[c][from..from + size], i);
    }
    ConstantMean(each, i);
  }

  lemma {:induction false} ConstantCurrent(sqrt: Function, cur: seq<Row>, size: nat, n: nat, i: real)
    requires SquareRoot(sqrt) && size > 0 && cur != [] && Reach(cur, Multiple(n, size))
    requires i >= 0.0 && Constant(cur, i)
    ensures forall w :: 0 <= w < n ==> CurrentColumn(sqrt, cur, size, n)[w] == i
  {
    if n > 0 {
      ConstantCurrent(sqrt, cur, size, n - 1, i);
      ConstantEach(sqrt, cur, Multiple(n - 1, size), size, i);
    }
  }

  // Signals that stay at one value, vibration and current not negative, are reported at
  // that value in every window.
  lemma ConstantReduced(
    sqrt: Function, vib: seq<Row>, temp: seq<Row>, cur: seq<Row>, size: nat, n: nat, v: real, t: real, i: real)
    requires SquareRoot(sqrt) && size > 0 && vib != [] && temp != [] && cur != []
    requires Reach(vib, Multiple(n, size)) && Reach(temp, Multiple(n, size)) && Reach(cur, Multiple(n, size))
    requires v >= 0.0 && i >= 0.0 && Constant(vib, v) && Constant(temp, t) && Constant(cur, i)
    ensures ColumnStack(VibrationColumn(sqrt, vib, size, n), TemperatureColumn(temp, size, n),
                        CurrentColumn(sqrt, cur, size, n))
            == seq(n, w requires 0 <= w < n => Reading(v, t, i))
  {
    ConstantVibration(sqrt, vib, size, n, v);
    ConstantTemperature(temp, size, n, t);
    ConstantCurrent(sqrt, cur, size, n, i);
  }

  // ----- averaging the phases -----------------------------------------------------------------

  function Deviation(m: real): Function {
    (x: real) => (x - m) * (x - m)
  }

  // The sum of squared deviations from m, from the sum and the sum of squares.
  function Spread(squares: real, sum: real, n: real, m: real): real {
    squares - 2.0 * (m * sum) + m * m * n
  }

  lemma OneMore(squares: real, sum: real, n: real, m: real, a: real)
    ensures Spread(a * a + squares, a + sum, n + 1.0, m) == (a - m) * (a - m) + Spread(squares, sum, n, m)
  {
    assert m * (a + sum) == m * a + m * sum;
    assert m * m * (n + 1.0) == m * m * n + m * m;
    assert (a - m) * (a - m) == a * a - 2.0 * (m * a) + m * m;
  }

  lemma SpreadStep(
    d: real, rest: real, squares: real, squares': real, sum: real, sum': real, n: nat, m: real, a: real)
    requires rest == Spread(squares', sum', n as real, m)
    requires d == Deviation(m)(a) + rest && squares == Square()(a) + squares' && sum == a + sum'
    ensures d == Spread(squares, sum, (n + 1) as real, m)
  {
    OneMore(squares', sum', n as real, m, a);
  }

  lemma {:induction false} DeviationsSum(x: Row, m: real)
    ensures Sum(RowMap(Deviation(m), x)) == Spread(Sum(RowMap(Square(), x)), Sum(x), |x| as real, m)
  {
    if x != [] {
      DeviationsSum(x[1..], m);
      MapHead(Deviation(m), x);
      MapHead(Square(), x);
      SpreadStep(Sum(RowMap(Deviation(m), x)), Sum(RowMap(Deviation(m), x[1..])),
                 Sum(RowMap(Square(), x)), Sum(RowMap(Square(), x[1..])), Sum(x), Sum(x[1..]), |x[1..]|, m, x[0]);
    }
  }

  lemma DeviationsNonNegative(x: Row, m: real)
    ensures Sum(RowMap(Deviation(m), x)) >= 0.0
  {
    forall a: real
      ensures Deviation(m)(a) >= 0.0
    {
      var d := a - m;
      assert d * d >= 0.0;
    }
    NonNegativeSum(Deviation(m), x);
  }

  lemma SpreadNonNegative(x: Row, m: real)
    ensures Spread(Sum(RowMap(Square(), x)), Sum(x), |x| as real, m) >= 0.0
  {
    DeviationsSum(x, m);
    DeviationsNonNegative(x, m);
  }

  lemma Rearranged(m: real, n: real, squares: real, sum: real, q: real)
    requires n > 0.0 && m * n == sum && q * n == squares
    requires Spread(squares, sum, n, m) >= 0.0
    ensures m * m <= q
  {
    assert m * sum == m * m * n;
    var d := q - m * m;
    assert d * n == q * n - m * m * n;
    if d < 0.0 {
      ProductPositive(-d, n);
    }
  }

  // The square of a mean is at most the mean of the squares.
  lemma MeanSquare(x: Row)
    requires x != []
    ensures Mean(x) * Mean(x) <= Mean(RowMap(Square(), x))
  {
    SpreadNonNegative(x, Mean(x));
    MeanTotal(x, |x|);
    MeanTotal(RowMap(Square(), x), |x|);
    Rearranged(Mean(x), |x| as real, Sum(RowMap(Square(), x)), Sum(x), Mean(RowMap(Square(), x)));
  }

  function EachEnergy(levels: Row, samples: nat): real {
    if levels == [] then 0.0 else Energy(levels[0], samples) + EachEnergy(levels[1..], samples)
  }

  lemma SplitProduct(a: real, b: real, c: nat)
    ensures Energy(a, c) + b * (c as real) == (a * a + b) * (c as real)
  {
    EnergyIs(a, c);
  }

  lemma {:induction false} EachEnergyIs(levels: Row, samples: nat)
    ensures EachEnergy(levels, samples) == Sum(RowMap(Square(), levels)) * (samples as real)
  {
    if levels != [] {
      EachEnergyIs(levels[1..], samples);
      MapHead(Square(), levels);
      SplitProduct(levels[0], Sum(RowMap(Square(), levels[1..])), samples);
    }
  }

  lemma {:induction false} EnergyOfEach(sqrt: Function, cur: seq<Row>, from: nat, size: nat)
    requires SquareRoot(sqrt) && size > 0 && Reach(cur, from + size)
    ensures EachEnergy(RmsOfEach(sqrt, cur, from, from + size), size) == InWindow(Square(), cur, from, from + size)
  {
    if cur != [] {
      EnergyOfEach(sqrt, cur[1..], from, size);
      RmsTail(sqrt, cur, from, from + size);
      RmsEnergy(sqrt, cur[0][from..from + size]);
    }
  }

  lemma RmsTail(sqrt: Function, cur: seq<Row>, from: nat, to: nat)
    requires from < to && Reach(cur, to) && cur != []
    ensures RmsOfEach(sqrt, cur, from, to)[1..] == RmsOfEach(sqrt, cur[1..], from, to)
  {
  }

  // Averaging the phases' RMS never gives more than pooling their samples would: the
  // reported current is at most the RMS over all phases.
  lemma AveragedAtMostPooled(sqrt: Function, cur: seq<Row>, from: nat, size: nat)
    requires SquareRoot(sqrt) && size > 0 && cur != [] && Reach(cur, from + size)
    ensures Pooled(cur, from, from + size) != []
    ensures Mean(RmsOfEach(sqrt, cur, from, from + size)) <= Rms(sqrt, Pooled(cur, from, from + size))
  {
    var each, energy := RmsOfEach(sqrt, cur, from, from + size), InWindow(Square(), cur, from, from + size);
    WindowEnergy(sqrt, cur, from, size);
    RmsSquared(sqrt, Pooled(cur, from, from + size));
    EnergyOfEach(sqrt, cur, from, size);
    LevelsAtMost(each, size, Rms(sqrt, Pooled(cur, from, from + size)), energy);
  }

  lemma LevelsAtMost(levels: Row, size: nat, pooled: real, energy: real)
    requires levels != [] && size > 0 && pooled >= 0.0
    requires EachEnergy(levels, size) == energy == Energy(pooled, Multiple(|levels|, size))
    ensures Mean(levels) <= pooled
  {
    var m, q, s := LevelMeans(levels, size);
    Chained(m, q, s, pooled, |levels|, size, energy);
  }

  // The mean of the levels, and the mean and the sum of their squares.
  lemma LevelMeans(levels: Row, size: nat) returns (m: real, q: real, s: real)
    requires levels != []
    ensures m == Mean(levels) && m * m <= q && q * (|levels| as real) == s
    ensures s * (size as real) == EachEnergy(levels, size)
  {
    m, q, s := Mean(levels), Mean(RowMap(Square(), levels)), Sum(RowMap(Square(), levels));
    MeanSquare(levels);
    EachEnergyIs(levels, size);
    MeanTotal(RowMap(Square(), levels), |levels|);
  }

  // Mean m of the levels, mean q and sum s of their squares, pooled level p, n channels
  // of k samples with energy e in all.
  lemma Chained(m: real, q: real, s: real, p: real, n: nat, k: nat, e: real)
    requires n > 0 && k > 0 && p >= 0.0
    requires m * m <= q && q * (n as real) == s && s * (k as real) == e && Energy(p, Multiple(n, k)) == e
    ensures m <= p
  {
    var x, y := n as real, k as real;
    MultipleIs(n, k);
    EnergyIs(p, Multiple(n, k));
    assert (Multiple(n, k) as real) == x * y;
    ProductPositive(x, y);
    Regrouped(q, x, y);
    Cancelled(q, p * p, x * y);
    if p < m {
      SquareOrder(p, m);
    }
  }

  lemma Regrouped(q: real, x: real, y: real)
    ensures q * (x * y) == (q * x) * y
  {
  }

  lemma Cancelled(a: real, b: real, c: real)
    requires c > 0.0 && a * c == b * c
    ensures a == b
  {
  }

  // ----- whole recordings ---------------------------------------------------------------------

  function Vibrations(rs: seq<Reading>): Row {
    seq(|rs|, i requires 0 <= i < |rs| => rs[i].vibration)
  }

  lemma StackedVibrations(a: Row, b: Row, c: Row)
    requires |a| == |b| == |c|
    ensures Vibrations(ColumnStack(a, b, c)) == a
  {
  }

  lemma WholeWindowsReach(arrays: seq<Row>, k: nat)
    requires arrays != [] && SameLength(arrays) && k <= |arrays[0]|
    ensures Reach(arrays, k)
  {
  }

  // The readings of three stacked signals: one per whole window of the shortest, and
  // their vibration accounts for the energy of the samples kept.
  ghost predicate Faithful(rs: seq<Reading>, vib: seq<Row>, temp: seq<Row>, cur: seq<Row>, size: nat)
    requires vib != [] && temp != [] && cur != []
  {
    var kept, shortest := Multiple(|rs|, size), Min(|vib[0]|, Min(|temp[0]|, |cur[0]|));
    && |rs| >= 1 && kept <= shortest < kept + size
    && Reach(vib, kept)
    && TotalEnergy(Vibrations(rs), Multiple(|vib|, size)) == Kept(Square(), vib, kept)
  }

  lemma ColumnsFaithful(sqrt: Function, vib: seq<Row>, temp: seq<Row>, cur: seq<Row>, size: nat, n: nat)
    requires SquareRoot(sqrt) && size > 0 && vib != [] && temp != [] && cur != []
    requires SameLength(vib) && SameLength(temp) && SameLength(cur)
    requires n == WindowCount(vib, temp, cur, size) >= 1
    ensures Reach(vib, Multiple(n, size)) && Reach(temp, Multiple(n, size)) && Reach(cur, Multiple(n, size))
    ensures Faithful(ColumnStack(VibrationColumn(sqrt, vib, size, n), TemperatureColumn(temp, size, n),
                                 CurrentColumn(sqrt, cur, size, n)), vib, temp, cur, size)
  {
    FewDropped(vib, temp, cur, size);
    WholeWindowsReach(vib, Multiple(n, size));
    WholeWindowsReach(temp, Multiple(n, size));
    WholeWindowsReach(cur, Multiple(n, size));
    StackedVibrations(VibrationColumn(sqrt, vib, size, n), TemperatureColumn(temp, size, n),
                      CurrentColumn(sqrt, cur, size, n));
    EnergyConserved(sqrt, vib, size, n);
  }

  // Every recording that can be reduced is reduced faithfully.
  lemma RecordingReduced(
    sqrt: Function, vibration: Channels, tempCurrent: Channels, sampleRate: real, readingRate: real)
    requires SquareRoot(sqrt)
    ensures var r := ReduceToReadings(sqrt, vibration, tempCurrent, sampleRate, readingRate);
      r.Ok? ==>
        var vib, temp := Stack(vibration, VIBRATION_CHANNELS), Stack(tempCurrent, TEMPERATURE_CHANNELS);
        var cur := Stack(tempCurrent, CURRENT_CHANNELS);
        && readingRate != 0.0 && WindowSize(sampleRate, readingRate) >= 1
        && vib.Ok? && temp.Ok? && cur.Ok?
        && Faithful(r.value, vib.value, temp.value, cur.value, WindowSize(sampleRate, readingRate))
  {
    if ReduceToReadings(sqrt, vibration, tempCurrent, sampleRate, readingRate).Ok? {
      var size := WindowSize(sampleRate, readingRate);
      var vib := Stack(vibration, VIBRATION_CHANNELS).value;
      var temp := Stack(tempCurrent, TEMPERATURE_CHANNELS).value;
      var cur := Stack(tempCurrent, CURRENT_CHANNELS).value;
      ColumnsFaithful(sqrt, vib, temp, cur, size, WindowCount(vib, temp, cur, size));
    }
  }

  predicate AllAt(mapping: Channels, names: seq<string>, c: real) {
    forall i, j :: 0 <= i < |names| && names[i] in mapping && 0 <= j < |mapping[names[i]]| ==> mapping[names[i]][j] == c
  }

  lemma {:induction false} PresentConstant(mapping: Channels, names: seq<string>, c: real)
    requires forall i :: 0 <= i < |names| ==> names[i] in mapping
    requires AllAt(mapping, names, c)
    ensures Constant(Present(mapping, names), c)
  {
    if names != [] {
      assert AllAt(mapping, names[1..], c);
      PresentConstant(mapping, names[1..], c);
      assert names[0] in mapping;
    }
  }

  // A machine whose sensors all stand still, at v, t and i, is reported to stand still
  // there.
  lemma ConstantRecording(
    sqrt: Function, vibration: Channels, tempCurrent: Channels, sampleRate: real, readingRate: real,
    v: real, t: real, i: real)
    requires SquareRoot(sqrt) && v >= 0.0 && i >= 0.0
    requires AllAt(vibration, VIBRATION_CHANNELS, v)
    requires AllAt(tempCurrent, TEMPERATURE_CHANNELS, t) && AllAt(tempCurrent, CURRENT_CHANNELS, i)
    ensures var rs := ReduceToReadings(sqrt, vibration, tempCurrent, sampleRate, readingRate);
      rs.Ok? ==> forall r :: r in rs.value ==> r == Reading(v, t, i)
  {
    if ReduceToReadings(sqrt, vibration, tempCurrent, sampleRate, readingRate).Err? {
      return;
    }
    var size := WindowSize(sampleRate, readingRate);
    var vib := Stack(vibration, VIBRATION_CHANNELS).value;
    var temp := Stack(tempCurrent, TEMPERATURE_CHANNELS).value;
    var cur := Stack(tempCurrent, CURRENT_CHANNELS).value;
    var n := WindowCount(vib, temp, cur, size);
    FewDropped(vib, temp, cur, size);
    WholeWindowsReach(vib, Multiple(n, size));
    WholeWindowsReach(temp, Multiple(n, size));
    WholeWindowsReach(cur, Multiple(n, size));
    PresentConstant(vibration, VIBRATION_CHANNELS, v);
    PresentConstant(tempCurrent, TEMPERATURE_CHANNELS, t);
    PresentConstant(tempCurrent, CURRENT_CHANNELS, i);
    ConstantReduced(sqrt, vib, temp, cur, size, n, v, t, i);
  }
}
