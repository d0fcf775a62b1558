// Raw recordings reduced to one reading per window (ml/rotating.py): vibration as RMS
// over all axes, temperature as a mean, current as the mean of the phases' RMS. The
// square root is a parameter.
module Windows {
  import opened Wrappers
  import opened Tensors
  import Rounding

  const VIBRATION_CHANNELS :=
    ["x_direction_housing_A", "y_direction_housing_A", "x_direction_housing_B", "y_direction_housing_B"]
  const TEMPERATURE_CHANNELS := ["Temperature_housing_A", "Temperature_housing_B"]
  const CURRENT_CHANNELS := ["U-phase", "V-phase", "W-phase"]

  datatype Problem =
    | ZeroRate | RateTooHigh | MissingChannel | EveryChannelEmpty | ChannelsDiffer | TooShort

  type Channels = map<string, Row>
  type Function = real -> real

  // ----- stacking -------------------------------------------------------------------------

  // Channels that are present but empty are dropped.
  function Present(mapping: Channels, names: seq<string>): (arrays: seq<Row>)
    requires forall i :: 0 <= i < |names| ==> names[i] in mapping
    ensures forall i :: 0 <= i < |arrays| ==> arrays[i] != []
  {
    if names == [] then []
    else (if mapping[names[0]] == [] then [] else [mapping[names[0]]]) + Present(mapping, names[1..])
  }

  predicate SameLength(arrays: seq<Row>) {
    forall i :: 0 <= i < |arrays| ==> |arrays[i]| == |arrays[0]|
  }

  function Stack(mapping: Channels, names: seq<string>): (r: Result<seq<Row>, Problem>)
    ensures r.Ok? ==> r.value != [] && SameLength(r.value) && r.value[0] != []
  {
    if exists i :: 0 <= i < |names| && names[i] !in mapping then Err(MissingChannel)
    else
      var arrays := Present(mapping, names);
      if arrays == [] then Err(EveryChannelEmpty)
      else if !SameLength(arrays) then Err(ChannelsDiffer)
      else Ok(arrays)
  }

  // ----- windows --------------------------------------------------------------------------

  predicate Reach(arrays: seq<Row>, k: nat) {
    forall i :: 0 <= i < |arrays| ==> k <= |arrays[i]|
  }

  // The samples of all channels between two positions.
  function Pooled(arrays: seq<Row>, from: nat, to: nat): Row
    requires from <= to && Reach(arrays, to)
  {
    if arrays == [] then [] else arrays[0][from..to] + Pooled(arrays[1..], from, to)
  }

  function Square(): Function {
    (x: real) => x * x
  }

  function Rms(sqrt: Function, x: Row): real
    requires x != []
  {
    sqrt(Mean(RowMap(Square(), x)))
  }

  function RmsOfEach(sqrt: Function, arrays: seq<Row>, from: nat, to: nat): (r: Row)
    requires from < to && Reach(arrays, to)
    ensures |r| == |arrays|
  {
    seq(|arrays|, c requires 0 <= c < |arrays| => Rms(sqrt, arrays[c][from..to]))
  }

  datatype Reading = Reading(vibration: real, temperature: real, current: real)

  // The length of w windows, w * size; window w starts there.
  function Multiple(w: nat, size: nat): nat {
    if w == 0 then 0 else Multiple(w - 1, size) + size
  }

  lemma {:induction false} MultipleIs(w: nat, size: nat)
    ensures Multiple(w, size) == w * size
  {
    if w > 0 {
      MultipleIs(w - 1, size);
      assert w * size == (w - 1) * size + size;
    }
  }

  lemma {:induction false} PooledLength(arrays: seq<Row>, from: nat, size: nat)
    requires Reach(arrays, from + size)
    ensures |Pooled(arrays, from, from + size)| == Multiple(|arrays|, size)
  {
    if arrays != [] {
      PooledLength(arrays[1..], from, size);
    }
  }

  lemma PooledSomething(arrays: seq<Row>, from: nat, to: nat)
    requires from < to && arrays != [] && Reach(arrays, to)
    ensures Pooled(arrays, from, to) != []
  {
    assert |arrays[0][from..to]| > 0;
  }

  function Min(x: nat, y: nat): nat {
    if x < y then x else y
  }

  // How many whole windows the shortest of the three signals holds.
  function WindowCount(vib: seq<Row>, temp: seq<Row>, cur: seq<Row>, size: nat): nat
    requires size > 0 && vib != [] && temp != [] && cur != []
  {
    Min(|vib[0]|, Min(|temp[0]|, |cur[0]|)) / size
  }

  // Whole windows fit, and one more would not.
  lemma WindowsFit(length: nat, size: nat)
    requires size > 0
    ensures Multiple(length / size, size) <= length < Multiple(length / size, size) + size
  {
    MultipleIs(length / size, size);
    assert length == size * (length / size) + length % size;
  }

  // One column of the result each: pooled RMS, pooled mean, mean of the channels' RMS.
  function VibrationColumn(sqrt: Function, vib: seq<Row>, size: nat, n: nat): (r: Row)
    requires size > 0 && vib != [] && Reach(vib, Multiple(n, size))
    ensures |r| == n
  {
    if n == 0 then []
    else
      var from := Multiple(n - 1, size);
      PooledSomething(vib, from, from + size);
      VibrationColumn(sqrt, vib, size, n - 1) + [Rms(sqrt, Pooled(vib, from, from + size))]
  }

  function TemperatureColumn(temp: seq<Row>, size: nat, n: nat): (r: Row)
    requires size > 0 && temp != [] && Reach(temp, Multiple(n, size))
    ensures |r| == n
  {
    if n == 0 then []
    else
      var from := Multiple(n - 1, size);
      PooledSomething(temp, from, from + size);
      TemperatureColumn(temp, size, n - 1) + [Mean(Pooled(temp, from, from + size))]
  }

  function CurrentColumn(sqrt: Function, cur: seq<Row>, size: nat, n: nat): (r: Row)
    requires size > 0 && cur != [] && Reach(cur, Multiple(n, size))
    ensures |r| == n
  {
    if n == 0 then []
    else
      var from := Multiple(n - 1, size);
      CurrentColumn(sqrt, cur, size, n - 1) + [Mean(RmsOfEach(sqrt, cur, from, from + size))]
  }

  function ColumnStack(vibration: Row, temperature: Row, current: Row): (r: seq<Reading>)
    requires |vibration| == |temperature| == |current|
    ensures |r| == |vibration|
  {
    seq(|vibration|, i requires 0 <= i < |vibration| => Reading(vibration[i], temperature[i], current[i]))
  }

  function WindowSize(sampleRate: real, readingRate: real): int
    requires readingRate != 0.0
  {
    Rounding.Nearest(sampleRate / readingRate)
  }

  function ReduceToReadings(
    sqrt: Function, vibration: Channels, tempCurrent: Channels, sampleRate: real, readingRate: real)
    : Result<seq<Reading>, Problem>
  {
    if readingRate == 0.0 then Err(ZeroRate)
    else
      var size := WindowSize(sampleRate, readingRate);
      if size < 1 then Err(RateTooHigh)
      else
        var vib := Stack(vibration, VIBRATION_CHANNELS);
        var temp := Stack(tempCurrent, TEMPERATURE_CHANNELS);
        var cur := Stack(tempCurrent, CURRENT_CHANNELS);
        if vib.Err? then Err(vib.error)
        else if temp.Err? then Err(temp.error)
        else if cur.Err? then Err(cur.error)
        else
          var n := WindowCount(vib.value, temp.value, cur.value, size);
          WindowsFit(Min(|vib.value[0]|, Min(|temp.value[0]|, |cur.value[0]|)), size);
          if n < 1 then Err(TooShort)
          else
            Ok(ColumnStack(VibrationColumn(sqrt, vib.value, size, n), TemperatureColumn(temp.value, size, n),
                           CurrentColumn(sqrt, cur.value, size, n)))
  }
}
