// Offline evaluation (ml/evaluate.py): fault episodes and a healthy run are scored
// reading by reading; detection, latency, recall, reasons and false alarms are counted.
module Evaluation {
  import opened Wrappers
  import opened Tallies
  import opened Sorting
  import opened Simulator
  import Scoring

  // The scorer, on the features of a reading.
  type Flag = Reading -> Scoring.Score

  type Why = Option<Scoring.Reason>

  type Episode = seq<Reading>

  // ----- what there is to count -------------------------------------------------------------

  function Hit(flag: Flag): Reading -> nat {
    (r: Reading) => if flag(r).anomaly then 1 else 0
  }

  function Because(flag: Flag, why: Why): Reading -> nat {
    (r: Reading) => if flag(r).anomaly && flag(r).reason == why then 1 else 0
  }

  // The index of the first alarm.
  function FirstHit(flag: Flag, e: Episode): (i: Option<nat>)
    ensures i.Some? ==>
      i.value < |e| && flag(e[i.value]).anomaly && forall k :: 0 <= k < i.value ==> !flag(e[k]).anomaly
    ensures i.None? ==> forall k :: 0 <= k < |e| ==> !flag(e[k]).anomaly
  {
    if e == [] then None
    else
      var last := |e| - 1;
      var earlier := FirstHit(flag, e[..last]);
      if earlier.Some? then earlier else if flag(e[last]).anomaly then Some(last) else None
  }

  // One latency for every detected episode.
  function Latencies(flag: Flag, es: seq<Episode>): seq<nat> {
    if es == [] then []
    else
      var last := |es| - 1;
      var first := FirstHit(flag, es[last]);
      Latencies(flag, es[..last]) + if first.Some? then [first.value] else []
  }

  function Flat(es: seq<Episode>): seq<Reading> {
    if es == [] then [] else Flat(es[..|es| - 1]) + es[|es| - 1]
  }

  ghost predicate Counted(reasons: map<Why, nat>, flag: Flag, rs: seq<Reading>) {
    && (forall why :: why in reasons <==> Total(Because(flag, why), rs) > 0)
    && forall why :: why in reasons ==> reasons[why] == Total(Because(flag, why), rs)
  }

  // ----- summaries --------------------------------------------------------------------------

  datatype FaultResult = FaultResult(
    episodes: int, detected: nat, episodeRate: real,
    median: Option<nat>, p90: Option<nat>, recall: real, reasons: map<Why, nat>)

  datatype Results = Results(faults: seq<(string, FaultResult)>, healthy: int, fp: nat, fpRate: real)

  function AsReal(): Key<nat> {
    (n: nat) => n as real
  }

  // The element `tenths` tenths of the way up the sorted list.
  function Percentile(latencies: seq<nat>, tenths: nat): Option<nat>
    requires tenths < 10
  {
    if latencies == [] then None
    else Some(Sorted(AsReal(), latencies)[|latencies| * tenths / 10])
  }

  ghost predicate Summarises(r: FaultResult, flag: Flag, es: seq<Episode>, episodes: int)
    requires episodes != 0
  {
    var latencies := Latencies(flag, es);
    var hits, total := Total(Hit(flag), Flat(es)), |Flat(es)|;
    && r.episodes == episodes
    && r.detected == |latencies|
    && r.episodeRate == (r.detected as real) / (episodes as real)
    && r.median == Percentile(latencies, 5)
    && r.p90 == Percentile(latencies, 9)
    && r.recall == (if total == 0 then 0.0 else (hits as real) / (total as real))
    && Counted(r.reasons, flag, Flat(es))
  }

  predicate Labelled(e: Episode, fault: Option<string>) {
    forall i :: 0 <= i < |e| ==> e[i].faultInjected == fault
  }

  // The episodes of one fault, as many as asked for.
  ghost predicate EpisodesOf(es: seq<Episode>, fault: string, episodes: int, ticks: int) {
    && |es| == AtLeastNone(episodes)
    && forall i :: 0 <= i < |es| ==> |es[i]| == Max(1, ticks) && Labelled(es[i], Some(fault))
  }

  function AtLeastNone(n: int): nat {
    if n < 0 then 0 else n
  }

  // ----- the counting loops -----------------------------------------------------------------

  lemma CountMore(reasons: map<Why, nat>, flag: Flag, rs: seq<Reading>, r: Reading)
    requires Counted(reasons, flag, rs)
    ensures !flag(r).anomaly ==> Counted(reasons, flag, rs + [r])
    ensures flag(r).anomaly ==>
      var why := flag(r).reason;
      Counted(reasons[why := (if why in reasons then reasons[why] else 0) + 1], flag, rs + [r])
  {
    forall why
      ensures Total(Because(flag, why), rs + [r]) == Total(Because(flag, why), rs) + Because(flag, why)(r)
    {
      TotalSnoc(Because(flag, why), rs, r);
    }
  }

  lemma GrowByOne(rs: seq<Reading>, e: Episode, i: nat)
    requires i < |e|
    ensures rs + e[..i + 1] == (rs + e[..i]) + [e[i]]
  {
  }

  // The inner loop: one episode, on top of what was counted before.
  method Scan(flag: Flag, e: Episode, hits0: nat, reasons0: map<Why, nat>, ghost before: seq<Reading>)
    returns (firstHit: Option<nat>, hits: nat, reasons: map<Why, nat>)
    requires hits0 == Total(Hit(flag), before) && Counted(reasons0, flag, before)
    ensures firstHit == FirstHit(flag, e)
    ensures hits == Total(Hit(flag), before + e) && Counted(reasons, flag, before + e)
  {
    firstHit, hits, reasons := None, hits0, reasons0;
    assert before + e[..0] == before;
    for i := 0 to |e|
      invariant firstHit == FirstHit(flag, e[..i])
      invariant hits == Total(Hit(flag), before + e[..i])
      invariant Counted(reasons, flag, before + e[..i])
    {
      var s := flag(e[i]);
      GrowByOne(before, e, i);
      TotalSnoc(Hit(flag), before + e[..i], e[i]);
      CountMore(reasons, flag, before + e[..i], e[i]);
      assert e[..i + 1][..i] == e[..i];
      if s.anomaly {
        hits := hits + 1;
        reasons := reasons[s.reason := (if s.reason in reasons then reasons[s.reason] else 0) + 1];
        if firstHit.None? {
          firstHit := Some(i);
        }
      }
    }
    assert e[..|e|] == e;
  }

  // What the loop over episodes has counted.
  ghost predicate Tallied(
    flag: Flag, es: seq<Episode>, latencies: seq<nat>, detected: nat, hits: nat, total: nat, reasons: map<Why, nat>)
  {
    && latencies == Latencies(flag, es) && detected == |latencies|
    && hits == Total(Hit(flag), Flat(es)) && total == |Flat(es)|
    && Counted(reasons, flag, Flat(es))
  }

  lemma TalliedMore(
    flag: Flag, es: seq<Episode>, latencies: seq<nat>, detected: nat, hits: nat, total: nat, reasons: map<Why, nat>,
    e: Episode, hits': nat, reasons': map<Why, nat>)
    requires Tallied(flag, es, latencies, detected, hits, total, reasons)
    requires hits' == Total(Hit(flag), Flat(es) + e) && Counted(reasons', flag, Flat(es) + e)
    ensures var first := FirstHit(flag, e);
      if first.Some? then
        Tallied(flag, es + [e], latencies + [first.value], detected + 1, hits', total + |e|, reasons')
      else Tallied(flag, es + [e], latencies, detected, hits', total + |e|, reasons')
  {
    assert (es + [e])[..|es|] == es;
    assert Flat(es + [e]) == Flat(es) + e;
    assert latencies + [] == latencies;
  }

  // The results of one fault type.
  method EvaluateFault(flag: Flag, fault: string, episodes: int, ticks: int)
    returns (r: FaultResult, ghost es: seq<Episode>)
    requires episodes != 0
    ensures EpisodesOf(es, fault, episodes, ticks) && Summarises(r, flag, es, episodes)
  {
    var latencies: seq<nat>, detected: nat, hits: nat, total: nat := [], 0, 0, 0;
    var reasons: map<Why, nat> := map[];
    es := [];
    var ep := 0;
    while ep < episodes
      invariant 0 <= ep <= AtLeastNone(episodes) && EpisodesOf(es, fault, ep, ticks)
      invariant Tallied(flag, es, latencies, detected, hits, total, reasons)
    {
      var readings, draws := EpisodeReadings(fault, ticks);
      ghost var hits0, reasons0 := hits, reasons;
      var firstHit;
      firstHit, hits, reasons := Scan(flag, readings, hits, reasons, Flat(es));
      TalliedMore(flag, es, latencies, detected, hits0, total, reasons0, readings, hits, reasons);
      total := total + |readings|;
      if firstHit.Some? {
        detected := detected + 1;
        latencies := latencies + [firstHit.value];
      }
      es := es + [readings];
      ep := ep + 1;
    }
    r := Concluded(episodes, latencies, detected, hits, total, reasons);
    TalliedSummarises(flag, es, latencies, detected, hits, total, reasons, episodes);
  }

  function Concluded(
    episodes: int, latencies: seq<nat>, detected: nat, hits: nat, total: nat, reasons: map<Why, nat>): FaultResult
    requires episodes != 0
  {
    FaultResult(
      episodes, detected, (detected as real) / (episodes as real),
      Percentile(latencies, 5), Percentile(latencies, 9),
      if total == 0 then 0.0 else (hits as real) / (total as real), reasons)
  }

  lemma TalliedSummarises(
    flag: Flag, es: seq<Episode>, latencies: seq<nat>, detected: nat, hits: nat, total: nat, reasons: map<Why, nat>,
    episodes: int)
    requires episodes != 0 && Tallied(flag, es, latencies, detected, hits, total, reasons)
    ensures Summarises(Concluded(episodes, latencies, detected, hits, total, reasons), flag, es, episodes)
  {
  }

  // False alarms on a machine that never has a fault.
  method HealthyRun(flag: Flag, healthy: int) returns (fp: nat, ghost calm: seq<Reading>)
    ensures |calm| == AtLeastNone(healthy) && Labelled(calm, None)
    ensures fp == Total(Hit(flag), calm)
  {
    var machine := new Machine();
    fp, calm := 0, [];
    var i := 0;
    while i < healthy
      invariant |calm| == i <= AtLeastNone(healthy)
      invariant machine.Valid() && machine.fault == None
      invariant Labelled(calm, None) && fp == Total(Hit(flag), calm)
    {
      var d := Draw();
      var r, left := machine.Step(0.0, d);
      if flag(r).anomaly {
        fp := fp + 1;
      }
      TotalSnoc(Hit(flag), calm, r);
      calm := calm + [r];
      i := i + 1;
    }
  }

  // The results of every fault type, in order.
  ghost predicate Covers(
    faults: seq<(string, FaultResult)>, runs: seq<seq<Episode>>, flag: Flag, episodes: int, ticks: int)
    requires episodes != 0
  {
    && |faults| == |runs| <= |FAULT_TYPES|
    && forall i :: 0 <= i < |faults| ==>
         && faults[i].0 == FAULT_TYPES[i]
         && EpisodesOf(runs[i], FAULT_TYPES[i], episodes, ticks)
         && Summarises(faults[i].1, flag, runs[i], episodes)
  }

  lemma CoversMore(
    faults: seq<(string, FaultResult)>, runs: seq<seq<Episode>>, flag: Flag, episodes: int, ticks: int,
    result: FaultResult, es: seq<Episode>)
    requires episodes != 0 && Covers(faults, runs, flag, episodes, ticks) && |faults| < |FAULT_TYPES|
    requires EpisodesOf(es, FAULT_TYPES[|faults|], episodes, ticks) && Summarises(result, flag, es, episodes)
    ensures Covers(faults + [(FAULT_TYPES[|faults|], result)], runs + [es], flag, episodes, ticks)
  {
  }

  // None: a division by zero, when no episodes or no healthy readings are asked for.
  method Evaluate(flag: Flag, episodes: int, ticks: int, healthy: int)
    returns (r: Option<Results>, ghost runs: seq<seq<Episode>>, ghost calm: seq<Reading>)
    ensures r.None? <==> episodes == 0 || healthy == 0
    ensures r.Some? ==> |r.value.faults| == |FAULT_TYPES| && Covers(r.value.faults, runs, flag, episodes, ticks)
    ensures r.Some? ==>
      && |calm| == AtLeastNone(healthy) && Labelled(calm, None)
      && r.value.healthy == healthy
      && r.value.fp == Total(Hit(flag), calm)
      && r.value.fpRate == (r.value.fp as real) / (healthy as real)
  {
    runs, calm := [], [];
    if episodes == 0 || healthy == 0 {
      return None, runs, calm;
    }
    var faults: seq<(string, FaultResult)> := [];
    for i := 0 to |FAULT_TYPES|
      invariant |faults| == i && Covers(faults, runs, flag, episodes, ticks)
    {
      var result, es := EvaluateFault(flag, FAULT_TYPES[i], episodes, ticks);
      CoversMore(faults, runs, flag, episodes, ticks, result, es);
      faults, runs := faults + [(FAULT_TYPES[i], result)], runs + [es];
    }
    var fp: nat;
    fp, calm := HealthyRun(flag, healthy);
    r := Some(Results(faults, healthy, fp, (fp as real) / (healthy as real)));
  }

  // ----- what the counts mean ---------------------------------------------------------------

  function Detects(flag: Flag): Episode -> nat {
    (e: Episode) => if exists i :: 0 <= i < |e| && flag(e[i]).anomaly then 1 else 0
  }

  // Detected episodes are the ones with an alarm, and no more than there are.
  lemma {:induction false} DetectedEpisodes(flag: Flag, es: seq<Episode>)
    ensures |Latencies(flag, es)| == Total(Detects(flag), es) <= |es|
  {
    if es != [] {
      var last := |es| - 1;
      DetectedEpisodes(flag, es[..last]);
      TotalSnoc(Detects(flag), es[..last], es[last]);
      assert es == es[..last] + [es[last]];
    }
  }

  // The latencies of two lists of episodes, one after the other; of one episode, the
  // number of readings before its first alarm.
  lemma {:induction false} LatenciesAppend(flag: Flag, a: seq<Episode>, b: seq<Episode>)
    ensures Latencies(flag, a + b) == Latencies(flag, a) + Latencies(flag, b)
  {
    if b == [] {
      assert a + b == a;
    } else {
      var last := |b| - 1;
      LatenciesAppend(flag, a, b[..last]);
      FrontOfBoth(a, b);
    }
  }

  lemma FrontOfBoth<T>(a: seq<T>, b: seq<T>)
    requires b != []
    ensures (a + b)[..|a + b| - 1] == a + b[..|b| - 1] && (a + b)[|a + b| - 1] == b[|b| - 1]
  {
  }

  lemma {:induction false} FlatAppend(a: seq<Episode>, b: seq<Episode>)
    ensures Flat(a + b) == Flat(a) + Flat(b)
  {
    if b == [] {
      assert a + b == a;
    } else {
      FlatAppend(a, b[..|b| - 1]);
      FrontOfBoth(a, b);
    }
  }

  lemma OneLatency(flag: Flag, e: Episode, calm: Episode, alarm: Reading, rest: Episode)
    requires e == calm + [alarm] + rest && flag(alarm).anomaly
    requires forall i :: 0 <= i < |calm| ==> !flag(calm[i]).anomaly
    ensures Latencies(flag, [e]) == [|calm|] && Flat([e]) == e
  {
    assert e[|calm|] == alarm;
    assert [e][..0] == [];
    assert forall i :: 0 <= i < |calm| ==> e[i] == calm[i];
    assert FirstHit(flag, e) == Some(|calm|);
    assert Latencies(flag, [e][..0]) == [] && Flat([e][..0]) == [];
  }

  // There are at least as many alarms as detected episodes, and none only without any.
  lemma {:induction false} HitsAndDetections(flag: Flag, es: seq<Episode>)
    ensures Total(Detects(flag), es) <= Total(Hit(flag), Flat(es))
    ensures Total(Detects(flag), es) == 0 <==> Total(Hit(flag), Flat(es)) == 0
  {
    if es != [] {
      var last := |es| - 1;
      HitsAndDetections(flag, es[..last]);
      assert es == es[..last] + [es[last]];
      TotalSnoc(Detects(flag), es[..last], es[last]);
      TotalAppend(Hit(flag), Flat(es[..last]), es[last]);
      AlarmCounts(flag, es[last]);
    }
  }

  lemma {:induction false} AlarmCounts(flag: Flag, e: Episode)
    ensures Total(Hit(flag), e) > 0 <==> exists i :: 0 <= i < |e| && flag(e[i]).anomaly
    ensures Total(Hit(flag), e) <= |e|
  {
    if e != [] {
      AlarmCounts(flag, e[1..]);
      assert forall i :: 1 <= i < |e| ==> e[i] == e[1..][i - 1];
      assert forall i :: 0 <= i < |e[1..]| ==> e[1..][i] == e[i + 1];
    }
  }

  // No latency reaches the length of an episode.
  lemma {:induction false} LatenciesBelow(flag: Flag, es: seq<Episode>, n: nat)
    requires forall e :: e in es ==> |e| == n
    ensures forall l :: l in Latencies(flag, es) ==> l < n
  {
    if es != [] {
      LatenciesBelow(flag, es[..|es| - 1], n);
    }
  }

  lemma OneReason(flag: Flag, r: Reading)
    ensures
      Because(flag, None)(r) + Because(flag, Some(Scoring.Model))(r)
      + Because(flag, Some(Scoring.Limit))(r) + Because(flag, Some(Scoring.ModelAndLimit))(r)
      == Hit(flag)(r)
  {
    match flag(r).reason
    case None =>
    case Some(Model) =>
    case Some(Limit) =>
    case Some(ModelAndLimit) =>
  }

  // Every alarm has one of four reasons, and is counted under it.
  lemma {:induction false} ReasonsSum(flag: Flag, rs: seq<Reading>)
    ensures
      Total(Because(flag, None), rs) + Total(Because(flag, Some(Scoring.Model)), rs)
      + Total(Because(flag, Some(Scoring.Limit)), rs) + Total(Because(flag, Some(Scoring.ModelAndLimit)), rs)
      == Total(Hit(flag), rs) <= |rs|
  {
    if rs != [] {
      ReasonsSum(flag, rs[1..]);
      OneReason(flag, rs[0]);
    }
  }

  function Given(reasons: map<Why, nat>, why: Why): nat {
    if why in reasons then reasons[why] else 0
  }

  // The reason counts of a result add up to its hits, and none of them is zero.
  lemma ReasonCounts(reasons: map<Why, nat>, flag: Flag, rs: seq<Reading>)
    requires Counted(reasons, flag, rs)
    ensures
      Given(reasons, None) + Given(reasons, Some(Scoring.Model))
      + Given(reasons, Some(Scoring.Limit)) + Given(reasons, Some(Scoring.ModelAndLimit))
      == Total(Hit(flag), rs)
    ensures forall why :: why in reasons ==> reasons[why] > 0
  {
    ReasonsSum(flag, rs);
  }

  lemma TimesOneMore(k: nat, n: nat)
    ensures (k + 1) * n == k * n + n
  {
  }

  lemma {:induction false} FlatLength(es: seq<Episode>, n: nat)
    requires forall e :: e in es ==> |e| == n
    ensures |Flat(es)| == |es| * n
  {
    if es != [] {
      FlatLength(es[..|es| - 1], n);
      TimesOneMore(|es| - 1, n);
    }
  }

  // At least k + 1 latencies are no longer than the one at position k of the sorted
  // list, and at least n - k no shorter.
  lemma PositionRank(latencies: seq<nat>, k: nat)
    requires k < |latencies|
    ensures var v := Sorted(AsReal(), latencies)[k];
      && v in latencies
      && Total(AtMost(AsReal(), v as real), latencies) >= k + 1
      && Total(AtLeast(AsReal(), v as real), latencies) >= |latencies| - k
  {
    var sorted := Sorted(AsReal(), latencies);
    var v := AsReal()(sorted[k]);
    SortedOrdered(AsReal(), latencies);
    Rank(AsReal(), sorted, k);
    SortedTallies(AsReal(), latencies, AtMost(AsReal(), v));
    SortedTallies(AsReal(), latencies, AtLeast(AsReal(), v));
    SortedElements(AsReal(), latencies);
    assert sorted[k] in multiset(sorted);
  }

  // The median and the 90th percentile exist exactly when something was detected, are
  // latencies that occurred, and are in order.
  lemma PercentilesOrdered(latencies: seq<nat>)
    ensures (Percentile(latencies, 5).Some? <==> latencies != []) && (Percentile(latencies, 9).Some? <==> latencies != [])
    ensures latencies != [] ==>
      var median, p90 := Percentile(latencies, 5).value, Percentile(latencies, 9).value;
      median in latencies && p90 in latencies && median <= p90
  {
    if latencies != [] {
      var n, sorted := |latencies|, Sorted(AsReal(), latencies);
      PositionRank(latencies, n * 5 / 10);
      PositionRank(latencies, n * 9 / 10);
      SortedOrdered(AsReal(), latencies);
      if n * 5 / 10 < n * 9 / 10 {
        assert AsReal()(sorted[n * 5 / 10]) <= AsReal()(sorted[n * 9 / 10]);
      }
    }
  }

  // More than half of the detected episodes took no longer than the median, at least
  // half took no less; more than nine tenths took no longer than the 90th percentile.
  lemma PercentilesMean(latencies: seq<nat>)
    requires latencies != []
    ensures var median, p90, n := Percentile(latencies, 5).value, Percentile(latencies, 9).value, |latencies|;
      && 2 * Total(AtMost(AsReal(), median as real), latencies) > n
      && 2 * Total(AtLeast(AsReal(), median as real), latencies) >= n
      && 10 * Total(AtMost(AsReal(), p90 as real), latencies) > 9 * n
  {
    PositionRank(latencies, |latencies| * 5 / 10);
    PositionRank(latencies, |latencies| * 9 / 10);
  }

  // What a result for one fault type always satisfies, for any scorer.
  lemma ResultSound(r: FaultResult, flag: Flag, es: seq<Episode>, fault: string, episodes: int, ticks: int)
    requires episodes > 0 && EpisodesOf(es, fault, episodes, ticks) && Summarises(r, flag, es, episodes)
    ensures r.detected == Total(Detects(flag), es) <= r.episodes
    ensures 0.0 <= r.episodeRate <= 1.0 && (r.episodeRate == 1.0 <==> r.detected == r.episodes)
    ensures r.median.Some? <==> r.detected > 0
    ensures r.median.Some? ==> r.p90.Some? && r.median.value <= r.p90.value < Max(1, ticks)
    ensures |Flat(es)| == episodes * Max(1, ticks) && Total(Hit(flag), Flat(es)) <= |Flat(es)|
    ensures 0.0 <= r.recall <= 1.0
  {
    var latencies := Latencies(flag, es);
    DetectedEpisodes(flag, es);
    LatenciesBelow(flag, es, Max(1, ticks));
    PercentilesOrdered(latencies);
    ReasonsSum(flag, Flat(es));
    FlatLength(es, Max(1, ticks));
    Share(r.detected, episodes);
    if |Flat(es)| > 0 {
      Share(Total(Hit(flag), Flat(es)), |Flat(es)|);
    }
  }

  // A share of n is x.
  predicate IsShare(share: real, x: nat, n: nat) {
    share * (n as real) == x as real
  }

  lemma ShareOf(x: nat, n: nat, share: real)
    requires n > 0 && share == (x as real) / (n as real)
    ensures IsShare(share, x, n)
  {
  }

  // The rates of a result are shares of all episodes and of all their readings.
  lemma RatesAre(r: FaultResult, flag: Flag, es: seq<Episode>, episodes: nat)
    requires episodes > 0 && Summarises(r, flag, es, episodes)
    ensures IsShare(r.episodeRate, Total(Detects(flag), es), episodes)
    ensures IsShare(r.recall, Total(Hit(flag), Flat(es)), |Flat(es)|)
  {
    DetectedEpisodes(flag, es);
    ShareOf(r.detected, episodes, r.episodeRate);
    if Flat(es) != [] {
      ShareOf(Total(Hit(flag), Flat(es)), |Flat(es)|, r.recall);
    }
  }

  lemma Share(x: nat, n: nat)
    requires n > 0 && x <= n
    ensures 0.0 <= (x as real) / (n as real) <= 1.0
    ensures (x as real) / (n as real) == 1.0 <==> x == n
  {
    var p, m := x as real, n as real;
    QuotientOf(p, m);
    if x < n {
      assert p < m;
    }
  }

  lemma QuotientOf(p: real, m: real)
    requires 0.0 <= p <= m && m > 0.0
    ensures 0.0 <= p / m <= 1.0 && (p / m == 1.0 <==> p == m)
  {
    var q := p / m;
    assert q * m == p;
    assert (1.0 - q) * m == m - p;
    ZeroFactor(1.0 - q, m);
  }

  lemma ZeroFactor(a: real, c: real)
    requires c > 0.0
    ensures a == 0.0 <==> a * c == 0.0
    ensures a >= 0.0 <==> a * c >= 0.0
  {
  }
}
