// The simulated machine (simulator/simulate.py): readings, and episodes of one fault.
// Random draws are parameters. Readings are exact reals; the code rounds them.
module Simulator {
  import opened Wrappers

  const BEARING_FAULT := "bearing_fault"
  const OVERHEAT := "overheat"
  const OVERLOAD := "overload"
  const FAULT_TYPES := [BEARING_FAULT, OVERHEAT, OVERLOAD]

  datatype Reading = Reading(vibration: real, temperature: real, current: real, faultInjected: Option<string>)

  // What one step may ask of the random generator: whether a fault starts, which and
  // for how long; the noise on each signal; the factors of two of the faults.
  datatype Draws = Draws(
    start: real, choice: string, duration: int,
    tempNoise: real, vibNoise: real, curNoise: real,
    bearingVib: real, bearingCur: real, overloadCur: real, overloadVib: real)

  ghost predicate Fair(d: Draws) {
    && 0.0 <= d.start < 1.0 && d.choice in FAULT_TYPES && 20 <= d.duration <= 40
    && 3.0 <= d.bearingVib <= 5.0 && 1.1 <= d.bearingCur <= 1.25
    && 1.6 <= d.overloadCur <= 2.0 && 1.4 <= d.overloadVib <= 1.8
  }

  function Max(x: int, y: int): (m: int)
    ensures x <= m && y <= m && (m == x || m == y)
  {
    if x < y then y else x
  }

  function AtLeastZero(x: real): real {
    if x < 0.0 then 0.0 else x
  }

  // How far an overheating machine is above its normal temperature.
  function Heat(ticksLeft: int): real {
    15.0 + 15.0 * (1.0 - (ticksLeft as real) / 40.0)
  }

  // The reading shaped by the active fault, with `ticksLeft` ticks to go.
  function Shaped(fault: Option<string>, ticksLeft: int, d: Draws): (r: Reading)
    ensures r.vibration >= 0.0 && r.current >= 0.0 && r.faultInjected == fault
  {
    var temp, vib, cur := 45.0 + d.tempNoise, 0.8 + d.vibNoise, 12.0 + d.curNoise;
    var bearing, hot, loaded := fault == Some(BEARING_FAULT), fault == Some(OVERHEAT), fault == Some(OVERLOAD);
    Reading(
      AtLeastZero(if bearing then vib * d.bearingVib else if loaded then vib * d.overloadVib else vib),
      if hot then temp + Heat(ticksLeft) else temp,
      AtLeastZero(if bearing then cur * d.bearingCur else if loaded then cur * d.overloadCur else cur),
      fault)
  }

  lemma ScaledUp(x: real, lo: real, f: real)
    requires x >= 0.0 && lo <= f
    ensures lo * x <= f * x
  {
    assert f * x == lo * x + (f - lo) * x;
  }

  lemma Raised(x: real, lo: real, f: real, hi: real)
    requires 0.0 < lo <= f <= hi
    ensures lo * AtLeastZero(x) <= AtLeastZero(x * f) <= hi * AtLeastZero(x)
  {
    if x < 0.0 {
      ScaledUp(-x, lo, f);
    } else {
      ScaledUp(x, lo, f);
      ScaledUp(x, f, hi);
    }
  }

  lemma DifferentFaults()
    ensures BEARING_FAULT != OVERHEAT && OVERHEAT != OVERLOAD && BEARING_FAULT != OVERLOAD
  {
    assert OVERHEAT[4] != OVERLOAD[4];
  }

  // A machine without a fault and without noise vibrates at 0.8, is at 45 degrees and
  // draws 12 amperes; noise adds to each, and no reading is negative.
  lemma CalmIs(left: int, d: Draws)
    ensures var calm := Shaped(None, left, d);
      && calm.temperature == 45.0 + d.tempNoise
      && (d.vibNoise >= -0.8 ==> calm.vibration == 0.8 + d.vibNoise)
      && (d.vibNoise < -0.8 ==> calm.vibration == 0.0)
      && (d.curNoise >= -12.0 ==> calm.current == 12.0 + d.curNoise)
      && (d.curNoise < -12.0 ==> calm.current == 0.0)
  {
  }

  predicate IsMultiple(y: real, f: real, x: real) {
    y == f * x
  }

  lemma Multiplied(x: real, f: real)
    requires f >= 0.0
    ensures IsMultiple(AtLeastZero(x * f), f, AtLeastZero(x))
  {
  }

  // The signals before the fault shapes them.
  lemma WornShape(left: int, d: Draws, vib: real, cur: real)
    requires vib == 0.8 + d.vibNoise && cur == 12.0 + d.curNoise
    ensures var calm, worn := Shaped(None, left, d), Shaped(Some(BEARING_FAULT), left, d);
      && calm.vibration == AtLeastZero(vib) && worn.vibration == AtLeastZero(vib * d.bearingVib)
      && calm.current == AtLeastZero(cur) && worn.current == AtLeastZero(cur * d.bearingCur)
      && worn.temperature == calm.temperature
  {
    DifferentFaults();
  }

  lemma LoadedShape(left: int, d: Draws, vib: real, cur: real)
    requires vib == 0.8 + d.vibNoise && cur == 12.0 + d.curNoise
    ensures var calm, loaded := Shaped(None, left, d), Shaped(Some(OVERLOAD), left, d);
      && calm.vibration == AtLeastZero(vib) && loaded.vibration == AtLeastZero(vib * d.overloadVib)
      && calm.current == AtLeastZero(cur) && loaded.current == AtLeastZero(cur * d.overloadCur)
      && loaded.temperature == calm.temperature
  {
    DifferentFaults();
  }

  // A fault multiplies the signals by the factors drawn for it.
  lemma BearingFactors(left: int, d: Draws)
    requires Fair(d)
    ensures var calm, worn := Shaped(None, left, d), Shaped(Some(BEARING_FAULT), left, d);
      && IsMultiple(worn.vibration, d.bearingVib, calm.vibration)
      && IsMultiple(worn.current, d.bearingCur, calm.current) && worn.temperature == calm.temperature
  {
    var vib, cur := 0.8 + d.vibNoise, 12.0 + d.curNoise;
    WornShape(left, d, vib, cur);
    Multiplied(vib, d.bearingVib);
    Multiplied(cur, d.bearingCur);
  }

  lemma OverloadFactors(left: int, d: Draws)
    requires Fair(d)
    ensures var calm, loaded := Shaped(None, left, d), Shaped(Some(OVERLOAD), left, d);
      && IsMultiple(loaded.vibration, d.overloadVib, calm.vibration)
      && IsMultiple(loaded.current, d.overloadCur, calm.current) && loaded.temperature == calm.temperature
  {
    var vib, cur := 0.8 + d.vibNoise, 12.0 + d.curNoise;
    LoadedShape(left, d, vib, cur);
    Multiplied(vib, d.overloadVib);
    Multiplied(cur, d.overloadCur);
  }

  // Draws reach both ends of every range, and every fault.
  lemma DrawsReach(start: real, a: real, b: real, c: real)
    requires 0.0 <= start < 1.0
    ensures Fair(Draws(start, BEARING_FAULT, 20, a, b, c, 3.0, 1.1, 1.6, 1.4))
    ensures Fair(Draws(start, OVERHEAT, 30, a, b, c, 4.0, 1.2, 1.8, 1.6))
    ensures Fair(Draws(start, OVERLOAD, 40, a, b, c, 5.0, 1.25, 2.0, 1.8))
  {
  }

  // An overheating machine is 15 degrees too hot with 40 ticks to go, and gets hotter by
  // three eighths of a degree with each tick, up to 30 degrees.
  lemma HeatRises(left: int)
    ensures Heat(40) == 15.0 && Heat(0) == 30.0 && Heat(left) == Heat(left + 1) + 0.375
  {
  }

  // Against the reading the machine would have given without the fault: a bearing
  // fault multiplies the vibration by 3 to 5 and the current by 1.1 to 1.25.
  lemma BearingFaultRaises(left: int, d: Draws)
    requires Fair(d)
    ensures var calm, faulty := Shaped(None, left, d), Shaped(Some(BEARING_FAULT), left, d);
      && 3.0 * calm.vibration <= faulty.vibration <= 5.0 * calm.vibration
      && 1.1 * calm.current <= faulty.current <= 1.25 * calm.current
      && faulty.temperature == calm.temperature
  {
    DifferentFaults();
    Raised(0.8 + d.vibNoise, 3.0, d.bearingVib, 5.0);
    Raised(12.0 + d.curNoise, 1.1, d.bearingCur, 1.25);
  }

  // Overload multiplies the current by 1.6 to 2 and the vibration by 1.4 to 1.8.
  lemma OverloadRaises(left: int, d: Draws)
    requires Fair(d)
    ensures var calm, faulty := Shaped(None, left, d), Shaped(Some(OVERLOAD), left, d);
      && 1.6 * calm.current <= faulty.current <= 2.0 * calm.current
      && 1.4 * calm.vibration <= faulty.vibration <= 1.8 * calm.vibration
      && faulty.temperature == calm.temperature
  {
    DifferentFaults();
    Raised(12.0 + d.curNoise, 1.6, d.overloadCur, 2.0);
    Raised(0.8 + d.vibNoise, 1.4, d.overloadVib, 1.8);
  }

  // Overheating moves the temperature alone.
  lemma OverheatMoves(left: int, d: Draws)
    ensures var calm, faulty := Shaped(None, left, d), Shaped(Some(OVERHEAT), left, d);
      && faulty.temperature == calm.temperature + Heat(left)
      && faulty.vibration == calm.vibration && faulty.current == calm.current
  {
    DifferentFaults();
  }

  // An overheat episode makes every reading hotter exactly when it is shorter than 80
  // ticks; a longer one, which a control command may ask for, starts out cooling.
  lemma OverheatHeats(ticks: int, d: Draws)
    requires ticks >= 1
    ensures (forall left :: 1 <= left <= ticks ==> Hotter(left, d)) <==> ticks < 80
  {
    forall left: int ensures Hotter(left, d) <==> left < 80 {
      OverheatMoves(left, d);
    }
    if ticks >= 80 {
      assert !Hotter(80, d);
    }
  }

  // With this many ticks left, overheating raises the temperature, and nothing else.
  predicate Hotter(left: int, d: Draws) {
    var calm, faulty := Shaped(None, left, d), Shaped(Some(OVERHEAT), left, d);
    && faulty.temperature > calm.temperature
    && faulty.vibration == calm.vibration && faulty.current == calm.current
  }

  class Machine {
    var temperature: real
    var vibration: real
    var current: real
    var fault: Option<string>
    var ticksLeft: int

    predicate Valid()
      reads this
    {
      fault.Some? ==> ticksLeft >= 1
    }

    constructor ()
      ensures Valid() && fault == None
    {
      temperature, vibration, current := 45.0, 0.8, 12.0;
      fault, ticksLeft := None, 0;
    }

    method StartFault(f: string, ticks: int)
      modifies this`fault, this`ticksLeft
      ensures Valid() && fault == Some(f) && ticksLeft == if ticks < 1 then 1 else ticks
    {
      fault, ticksLeft := Some(f), Max(1, ticks);
    }

    // At probability 0 no fault ever starts; a running one is never replaced.
    method MaybeStartFault(anomalyProb: real, d: Draws)
      requires Valid() && Fair(d)
      modifies this`fault, this`ticksLeft
      ensures Valid()
      ensures old(fault).Some? || anomalyProb <= 0.0 ==> fault == old(fault) && ticksLeft == old(ticksLeft)
      ensures old(fault).None? && fault.Some? ==> fault.value in FAULT_TYPES && 20 <= ticksLeft <= 40
      ensures old(fault).None? && anomalyProb >= 1.0 ==> fault.Some?
    {
      if fault.None? && d.start < anomalyProb {
        StartFault(d.choice, d.duration);
      }
    }

    // One reading, labelled with the fault that shaped it; that fault has one tick less
    // to go.
    method Step(anomalyProb: real, d: Draws) returns (r: Reading, ghost left: int)
      requires Valid() && Fair(d)
      modifies this
      ensures Valid()
      ensures r == Shaped(r.faultInjected, left, d)
      ensures old(fault).Some? || anomalyProb <= 0.0 ==> r.faultInjected == old(fault) && left == old(ticksLeft)
      ensures r.faultInjected.Some? ==>
        left >= 1 && ticksLeft == left - 1 && fault == if left == 1 then None else r.faultInjected
      ensures r.faultInjected.None? ==> fault == None
      ensures (temperature, vibration, current) == (r.temperature, r.vibration, r.current)
    {
      MaybeStartFault(anomalyProb, d);
      left := ticksLeft;
      var temp, vib, cur := 45.0 + d.tempNoise, 0.8 + d.vibNoise, 12.0 + d.curNoise;
      if fault == Some(BEARING_FAULT) {
        vib := vib * d.bearingVib;
        cur := cur * d.bearingCur;
      } else if fault == Some(OVERHEAT) {
        temp := temp + Heat(ticksLeft);
      } else if fault == Some(OVERLOAD) {
        cur := cur * d.overloadCur;
        vib := vib * d.overloadVib;
      }
      var active := fault;
      if fault.Some? {
        ticksLeft := ticksLeft - 1;
        if ticksLeft <= 0 {
          fault := None;
        }
      }
      temperature, vibration, current := temp, AtLeastZero(vib), AtLeastZero(cur);
      r := Reading(vibration, temperature, current, active);
    }
  }

  method Uniform(lo: real, hi: real) returns (x: real)
    requires lo <= hi
    ensures lo <= x <= hi
  {
    x := *;
    if x < lo {
      x := lo;
    } else if x > hi {
      x := hi;
    }
  }

  method Draw() returns (d: Draws)
    ensures Fair(d)
  {
    var start: real :| 0.0 <= start < 1.0;
    var i: int :| 0 <= i < |FAULT_TYPES|;
    var duration: int :| 20 <= duration <= 40;
    var a: real, b: real, c: real := *, *, *;
    var e := Uniform(3.0, 5.0);
    var f := Uniform(1.1, 1.25);
    var g := Uniform(1.6, 2.0);
    var h := Uniform(1.4, 1.8);
    d := Draws(start, FAULT_TYPES[i], duration, a, b, c, e, f, g, h);
  }

  // A fault episode: after five discarded readings, one reading per tick (and at least
  // one), every one of them shaped by the fault and labelled with it.
  method EpisodeReadings(fault: string, ticks: int) returns (readings: seq<Reading>, ghost draws: seq<Draws>)
    ensures |readings| == |draws| == Max(1, ticks)
    ensures forall k :: 0 <= k < |readings| ==> readings[k] == Shaped(Some(fault), Max(1, ticks) - k, draws[k])
    ensures forall r :: r in readings ==> r.faultInjected == Some(fault)
  {
    var machine := new Machine();
    for i := 0 to 5
      invariant machine.Valid() && machine.fault == None
    {
      var d := Draw();
      var discarded, left := machine.Step(0.0, d);
    }
    machine.StartFault(fault, ticks);
    readings, draws := [], [];
    while machine.fault.Some?
      invariant machine.Valid() && |draws| == |readings| <= Max(1, ticks)
      invariant machine.fault.Some? ==>
        machine.fault == Some(fault) && machine.ticksLeft == Max(1, ticks) - |readings|
      invariant machine.fault.None? ==> |readings| == Max(1, ticks)
      invariant forall k :: 0 <= k < |readings| ==> readings[k] == Shaped(Some(fault), Max(1, ticks) - k, draws[k])
      decreases Max(1, ticks) - |readings|
    {
      var d := Draw();
      var r, left := machine.Step(0.0, d);
      readings, draws := readings + [r], draws + [d];
    }
  }
}
