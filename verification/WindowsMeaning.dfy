// What each reading of a reduced recording measures, and when there is none
// (ml/rotating.py).
module WindowsMeaning {
  import opened Wrappers
  import opened Tallies
  import opened Tensors
  import Rounding
  import opened Windows
  import opened WindowsProofs

  // ----- channels -----------------------------------------------------------------------

  predicate AllThere(mapping: Channels, names: seq<string>) {
    forall i :: 0 <= i < |names| ==> names[i] in mapping
  }

  function HasSamples(mapping: Channels): string -> nat {
    (name: string) => if name in mapping && mapping[name] != [] then 1 else 0
  }

  // The channels stacked are those that hold samples, each once.
  lemma {:induction false} PresentIs(mapping: Channels, names: seq<string>, x: Row)
    requires AllThere(mapping, names)
    ensures x in Present(mapping, names) <==> x != [] && exists i :: 0 <= i < |names| && mapping[names[i]] == x
    ensures |Present(mapping, names)| == Total(HasSamples(mapping), names)
  {
    if names != [] {
      assert forall i :: 0 <= i < |names[1..]| ==> names[1..][i] == names[i + 1];
      PresentIs(mapping, names[1..], x);
      assert forall i :: 1 <= i < |names| ==> names[i] == names[1..][i - 1];
    }
  }

  predicate TwoLengths(mapping: Channels, names: seq<string>, i: nat, j: nat) {
    && i < |names| && j < |names| && names[i] in mapping && names[j] in mapping
    && mapping[names[i]] != [] && mapping[names[j]] != [] && |mapping[names[i]]| != |mapping[names[j]]|
  }

  lemma DifferIff(mapping: Channels, names: seq<string>)
    requires AllThere(mapping, names) && Present(mapping, names) != []
    ensures !SameLength(Present(mapping, names)) <==> exists i: nat, j: nat :: TwoLengths(mapping, names, i, j)
  {
    var arrays := Present(mapping, names);
    if k :| 0 <= k < |arrays| && |arrays[k]| != |arrays[0]| {
      PresentIs(mapping, names, arrays[k]);
      PresentIs(mapping, names, arrays[0]);
      var i :| 0 <= i < |names| && mapping[names[i]] == arrays[k];
      var j :| 0 <= j < |names| && mapping[names[j]] == arrays[0];
      assert TwoLengths(mapping, names, i, j);
    }
    if i: nat, j: nat :| TwoLengths(mapping, names, i, j) {
      PresentIs(mapping, names, mapping[names[i]]);
      PresentIs(mapping, names, mapping[names[j]]);
    }
  }

  // Exactly when channels cannot be stacked, and why.
  lemma StackIff(mapping: Channels, names: seq<string>)
    ensures Stack(mapping, names) == Err(MissingChannel) <==> !AllThere(mapping, names)
    ensures Stack(mapping, names) == Err(EveryChannelEmpty)
            <==> AllThere(mapping, names) && forall i :: 0 <= i < |names| ==> mapping[names[i]] == []
    ensures Stack(mapping, names) == Err(ChannelsDiffer)
            <==> AllThere(mapping, names) && exists i: nat, j: nat :: TwoLengths(mapping, names, i, j)
    ensures Stack(mapping, names).Ok? ==> Stack(mapping, names).value == Present(mapping, names)
  {
    if AllThere(mapping, names) {
      var arrays := Present(mapping, names);
      if arrays != [] {
        PresentIs(mapping, names, arrays[0]);
        DifferIff(mapping, names);
      } else if i :| 0 <= i < |names| && mapping[names[i]] != [] {
        PresentIs(mapping, names, mapping[names[i]]);
      }
    }
  }

  // ----- the size of a window -----------------------------------------------------------

  lemma RateTimes(sampleRate: real, readingRate: real) returns (q: real)
    requires readingRate > 0.0
    ensures q * readingRate == sampleRate && WindowSize(sampleRate, readingRate) == Rounding.Nearest(q)
  {
    q := sampleRate / readingRate;
  }

  lemma HalfOf(q: real, r: real, s: real)
    requires r > 0.0 && q * r == s
    ensures q > 0.5 <==> 2.0 * s > r
  {
    var d := q - 0.5;
    assert d * r == s - 0.5 * r;
    Signs(d, r);
  }

  lemma Signs(d: real, r: real)
    requires r > 0.0
    ensures d > 0.0 <==> d * r > 0.0
    ensures d >= 0.0 <==> d * r >= 0.0
  {
  }

  // So many samples last one reading period, to within half a sample; and there is not
  // even one exactly when the period is no longer than half a sample.
  predicate LastsOnePeriod(size: int, sampleRate: real, readingRate: real) {
    && sampleRate - 0.5 * readingRate <= (size as real) * readingRate <= sampleRate + 0.5 * readingRate
    && (size >= 1 <==> 2.0 * sampleRate > readingRate)
  }

  lemma NearestLasts(q: real, sampleRate: real, readingRate: real)
    requires readingRate > 0.0 && q * readingRate == sampleRate
    ensures LastsOnePeriod(Rounding.Nearest(q), sampleRate, readingRate)
  {
    var size := Rounding.Nearest(q);
    Rounding.NearestAtLeast(q, 1);
    Rounding.NearestAtLeast(q, size);
    Rounding.NearestAtMost(q, size);
    HalfOf(q, readingRate, sampleRate);
    Within(q, size as real, readingRate, sampleRate);
  }

  lemma WindowSizeIs(sampleRate: real, readingRate: real)
    requires readingRate > 0.0
    ensures LastsOnePeriod(WindowSize(sampleRate, readingRate), sampleRate, readingRate)
  {
    var q := RateTimes(sampleRate, readingRate);
    NearestLasts(q, sampleRate, readingRate);
  }

  lemma Within(q: real, k: real, r: real, s: real)
    requires r > 0.0 && k - 0.5 <= q <= k + 0.5 && q * r == s
    ensures s - 0.5 * r <= k * r <= s + 0.5 * r
  {
    Signs(q - k + 0.5, r);
    Signs(k + 0.5 - q, r);
    assert (q - k + 0.5) * r == q * r - k * r + 0.5 * r;
    assert (k + 0.5 - q) * r == k * r + 0.5 * r - q * r;
  }

  // ----- one reading --------------------------------------------------------------------

  function Same(): Function {
    (x: real) => x
  }

  lemma {:induction false} SameSum(x: Row)
    ensures Sum(RowMap(Same(), x)) == Sum(x)
  {
    if x != [] {
      SameSum(x[1..]);
      MapHead(Same(), x);
    }
  }

  lemma {:induction false} TemperatureAt(temp: seq<Row>, size: nat, n: nat, w: nat, from: nat)
    requires size > 0 && temp != [] && w < n && Reach(temp, Multiple(n, size)) && from == Multiple(w, size)
    ensures Reach(temp, from + size) && Pooled(temp, from, from + size) != []
    ensures TemperatureColumn(temp, size, n)[w] == Mean(Pooled(temp, from, from + size))
    decreases n
  {
    PooledSomething(temp, Multiple(n - 1, size), Multiple(n, size));
    if w < n - 1 {
      TemperatureAt(temp, size, n - 1, w, from);
    }
  }

  lemma {:induction false} CurrentAt(sqrt: Function, cur: seq<Row>, size: nat, n: nat, w: nat, from: nat)
    requires size > 0 && cur != [] && w < n && Reach(cur, Multiple(n, size)) && from == Multiple(w, size)
    ensures Reach(cur, from + size)
    ensures CurrentColumn(sqrt, cur, size, n)[w] == Mean(RmsOfEach(sqrt, cur, from, from + size))
    decreases n
  {
    if w < n - 1 {
      CurrentAt(sqrt, cur, size, n - 1, w, from);
    }
  }

  // The mean of so many samples, from their sum.
  predicate Averages(mean: real, samples: nat, total: real) {
    mean * (samples as real) == total
  }

  lemma MeanAverages(x: Row, n: nat)
    requires x != [] && n == |x|
    ensures Averages(Mean(x), n, Sum(x))
  {
  }

  lemma PooledSum(temp: seq<Row>, from: nat, to: nat)
    requires from <= to && Reach(temp, to)
    ensures Sum(Pooled(temp, from, to)) == InWindow(Same(), temp, from, to)
  {
    SameSum(Pooled(temp, from, to));
    PooledTotal(Same(), temp, from, to);
  }

  lemma PooledAverages(temp: seq<Row>, from: nat, size: nat, mean: real)
    requires Reach(temp, from + size) && Pooled(temp, from, from + size) != []
    requires mean == Mean(Pooled(temp, from, from + size))
    ensures Averages(mean, Multiple(|temp|, size), InWindow(Same(), temp, from, from + size))
  {
    var pooled := Pooled(temp, from, from + size);
    PooledLength(temp, from, size);
    PooledSum(temp, from, from + size);
    MeanAverages(pooled, |pooled|);
  }

  // A level is never negative, and its square times the size of the window is the
  // energy of the phase in the window.
  predicate PhaseLevel(level: real, phase: Row, from: nat, size: nat) {
    level >= 0.0 && from + size <= |phase| && Energy(level, size) == Sum(RowMap(Square(), phase[from..from + size]))
  }

  predicate PhaseLevels(levels: Row, cur: seq<Row>, from: nat, size: nat) {
    |levels| == |cur| && forall c :: 0 <= c < |cur| ==> PhaseLevel(levels[c], cur[c], from, size)
  }

  lemma EachLevel(sqrt: Function, cur: seq<Row>, from: nat, size: nat)
    requires SquareRoot(sqrt) && size > 0 && Reach(cur, from + size)
    ensures PhaseLevels(RmsOfEach(sqrt, cur, from, from + size), cur, from, size)
  {
    forall c | 0 <= c < |cur|
      ensures PhaseLevel(RmsOfEach(sqrt, cur, from, from + size)[c], cur[c], from, size)
    {
      RmsSquared(sqrt, cur[c][from..from + size]);
      RmsEnergy(sqrt, cur[c][from..from + size]);
    }
  }

  // What a reading says about the samples of its own window.
  ghost predicate MeasuresCurrent(current: real, cur: seq<Row>, from: nat, size: nat) {
    exists levels :: PhaseLevels(levels, cur, from, size) && Averages(current, |cur|, Sum(levels))
  }

  predicate MeasuresTemperature(temperature: real, temp: seq<Row>, from: nat, size: nat) {
    && Reach(temp, from + size)
    && Averages(temperature, Multiple(|temp|, size), InWindow(Same(), temp, from, from + size))
  }

  predicate MeasuresVibration(vibration: real, vib: seq<Row>, from: nat, size: nat) {
    && Reach(vib, from + size) && vibration >= 0.0
    && Energy(vibration, Multiple(|vib|, size)) == InWindow(Square(), vib, from, from + size)
  }

  ghost predicate Measures(r: Reading, vib: seq<Row>, temp: seq<Row>, cur: seq<Row>, from: nat, size: nat) {
    && MeasuresVibration(r.vibration, vib, from, size)
    && MeasuresTemperature(r.temperature, temp, from, size)
    && MeasuresCurrent(r.current, cur, from, size)
  }

  lemma VibrationMeasured(sqrt: Function, vib: seq<Row>, from: nat, size: nat, v: real)
    requires SquareRoot(sqrt) && size > 0 && vib != [] && Reach(vib, from + size)
    requires Pooled(vib, from, from + size) != [] && v == Rms(sqrt, Pooled(vib, from, from + size))
    ensures MeasuresVibration(v, vib, from, size)
  {
    RmsSquared(sqrt, Pooled(vib, from, from + size));
    WindowEnergy(sqrt, vib, from, size);
  }

  lemma CurrentMeasured(sqrt: Function, cur: seq<Row>, from: nat, size: nat, i: real)
    requires SquareRoot(sqrt) && size > 0 && cur != [] && Reach(cur, from + size)
    requires i == Mean(RmsOfEach(sqrt, cur, from, from + size))
    ensures MeasuresCurrent(i, cur, from, size)
  {
    EachLevel(sqrt, cur, from, size);
    MeanAverages(RmsOfEach(sqrt, cur, from, from + size), |cur|);
  }

  lemma ColumnsMeasure(sqrt: Function, vib: seq<Row>, temp: seq<Row>, cur: seq<Row>, size: nat, n: nat, w: nat, from: nat)
    requires SquareRoot(sqrt) && size > 0 && vib != [] && temp != [] && cur != [] && w < n && from == Multiple(w, size)
    requires Reach(vib, Multiple(n, size)) && Reach(temp, Multiple(n, size)) && Reach(cur, Multiple(n, size))
    ensures MeasuresVibration(VibrationColumn(sqrt, vib, size, n)[w], vib, from, size)
    ensures MeasuresTemperature(TemperatureColumn(temp, size, n)[w], temp, from, size)
    ensures MeasuresCurrent(CurrentColumn(sqrt, cur, size, n)[w], cur, from, size)
  {
    VibrationAt(sqrt, vib, size, n, w, from);
    VibrationMeasured(sqrt, vib, from, size, VibrationColumn(sqrt, vib, size, n)[w]);
    TemperatureAt(temp, size, n, w, from);
    PooledAverages(temp, from, size, TemperatureColumn(temp, size, n)[w]);
    CurrentAt(sqrt, cur, size, n, w, from);
    CurrentMeasured(sqrt, cur, from, size, CurrentColumn(sqrt, cur, size, n)[w]);
  }

  // Reading w of every recording that can be reduced measures window w of the channels
  // that hold samples: the root mean square of all vibration samples, the mean of all
  // temperature samples, and the mean over the phases of the root mean square of each.
  lemma ReadingMeasures(
    sqrt: Function, vibration: Channels, tempCurrent: Channels, sampleRate: real, readingRate: real, w: nat)
    requires SquareRoot(sqrt)
    requires var r := ReduceToReadings(sqrt, vibration, tempCurrent, sampleRate, readingRate); r.Ok? && w < |r.value|
    ensures readingRate != 0.0 && WindowSize(sampleRate, readingRate) >= 1
    ensures AllThere(vibration, VIBRATION_CHANNELS)
            && AllThere(tempCurrent, TEMPERATURE_CHANNELS) && AllThere(tempCurrent, CURRENT_CHANNELS)
    ensures var size := WindowSize(sampleRate, readingRate);
            Measures(ReduceToReadings(sqrt, vibration, tempCurrent, sampleRate, readingRate).value[w],
                     Present(vibration, VIBRATION_CHANNELS), Present(tempCurrent, TEMPERATURE_CHANNELS),
                     Present(tempCurrent, CURRENT_CHANNELS), Multiple(w, size), size)
  {
    var size := WindowSize(sampleRate, readingRate);
    var vib := Stack(vibration, VIBRATION_CHANNELS).value;
    var temp := Stack(tempCurrent, TEMPERATURE_CHANNELS).value;
    var cur := Stack(tempCurrent, CURRENT_CHANNELS).value;
    StackIff(vibration, VIBRATION_CHANNELS);
    StackIff(tempCurrent, TEMPERATURE_CHANNELS);
    StackIff(tempCurrent, CURRENT_CHANNELS);
    var n := WindowCount(vib, temp, cur, size);
    FewDropped(vib, temp, cur, size);
    WholeWindowsReach(vib, Multiple(n, size));
    WholeWindowsReach(temp, Multiple(n, size));
    WholeWindowsReach(cur, Multiple(n, size));
    ColumnsMeasure(sqrt, vib, temp, cur, size, n, w, Multiple(w, size));
  }

  // Exactly when there is no reading at all: no rate, a window of no sample, channels
  // that cannot be stacked (the first of the three signals that fails is named), or less
  // than one window of samples.
  lemma ReductionFails(
    sqrt: Function, vibration: Channels, tempCurrent: Channels, sampleRate: real, readingRate: real, p: Problem)
    ensures ReduceToReadings(sqrt, vibration, tempCurrent, sampleRate, readingRate) == Err(p) <==>
      if readingRate == 0.0 then p == ZeroRate
      else if WindowSize(sampleRate, readingRate) < 1 then p == RateTooHigh
      else
        var vib, temp := Stack(vibration, VIBRATION_CHANNELS), Stack(tempCurrent, TEMPERATURE_CHANNELS);
        var cur := Stack(tempCurrent, CURRENT_CHANNELS);
        if vib.Err? then vib == Err(p)
        else if temp.Err? then temp == Err(p)
        else if cur.Err? then cur == Err(p)
        else p == TooShort &&
             (|vib.value[0]| < WindowSize(sampleRate, readingRate)
              || |temp.value[0]| < WindowSize(sampleRate, readingRate)
              || |cur.value[0]| < WindowSize(sampleRate, readingRate))
  {
    if readingRate != 0.0 && WindowSize(sampleRate, readingRate) >= 1 {
      var vib, temp := Stack(vibration, VIBRATION_CHANNELS), Stack(tempCurrent, TEMPERATURE_CHANNELS);
      var cur := Stack(tempCurrent, CURRENT_CHANNELS);
      if vib.Ok? && temp.Ok? && cur.Ok? {
        var shortest := Min(|vib.value[0]|, Min(|temp.value[0]|, |cur.value[0]|));
        AtLeastOne(shortest, WindowSize(sampleRate, readingRate));
      }
    }
  }

  lemma AtLeastOne(length: nat, size: nat)
    requires size > 0
    ensures length / size < 1 <==> length < size
  {
    WindowsFit(length, size);
    MultipleIs(length / size, size);
  }
}
