// Agreement of a shadow model with the champion (inference/shadow.py).
module ShadowTracking {
  import opened Rounding
  import opened Wrappers
  import opened Tallies
  import Tensors

  datatype Comparison = Comparison(
    championScore: real, championAnomaly: bool, shadowScore: real, shadowAnomaly: bool)

  function Agrees(): Comparison -> nat {
    (c: Comparison) => if c.shadowAnomaly == c.championAnomaly then 1 else 0
  }

  function ChampionAlone(): Comparison -> nat {
    (c: Comparison) => if c.championAnomaly && !c.shadowAnomaly then 1 else 0
  }

  function ShadowAlone(): Comparison -> nat {
    (c: Comparison) => if c.shadowAnomaly && !c.championAnomaly then 1 else 0
  }

  function ChampionAlarm(): Comparison -> nat {
    (c: Comparison) => if c.championAnomaly then 1 else 0
  }

  function ShadowAlarm(): Comparison -> nat {
    (c: Comparison) => if c.shadowAnomaly then 1 else 0
  }

  // Shadow score minus champion score, summed with and without its sign.
  function Drifted(log: seq<Comparison>): real {
    if log == [] then 0.0
    else Drifted(log[..|log| - 1]) + (log[|log| - 1].shadowScore - log[|log| - 1].championScore)
  }

  function Abs(x: real): real {
    if x < 0.0 then -x else x
  }

  function Apart(log: seq<Comparison>): real {
    if log == [] then 0.0
    else Apart(log[..|log| - 1]) + Abs(log[|log| - 1].shadowScore - log[|log| - 1].championScore)
  }

  // Rates are reported to five decimals, scores to six.
  const RATE_SCALE: nat := 100000
  const SCORE_SCALE: nat := 1000000

  // Rates are None before the first comparison.
  datatype Report = Report(
    shadowVersion: string, championVersion: string, n: nat,
    agree: nat, championOnly: nat, shadowOnly: nat, errors: nat,
    agreementRate: Option<real>, scoreMae: Option<real>, scoreBias: Option<real>)

  function Over(x: real, n: nat, scale: nat): Option<real>
    requires scale > 0
  {
    if n == 0 then None else Some(Rounded(x / (n as real), scale))
  }

  // The report on a list of comparisons.
  ghost function ReportOn(shadow: string, champion: string, log: seq<Comparison>, errors: nat): Report {
    Report(shadow, champion, |log|, Total(Agrees(), log), Total(ChampionAlone(), log), Total(ShadowAlone(), log),
           errors, Over(Total(Agrees(), log) as real, |log|, RATE_SCALE),
           Over(Apart(log), |log|, SCORE_SCALE), Over(Drifted(log), |log|, SCORE_SCALE))
  }

  class ShadowTracker {
    const shadowVersion: string
    const championVersion: string
    var n: nat
    var agree: nat
    var championOnly: nat   // champion flagged an anomaly, shadow did not
    var shadowOnly: nat
    var errors: nat
    var diffSum: real
    var absDiffSum: real
    ghost var log: seq<Comparison>

    ghost predicate Valid()
      reads this
    {
      && n == |log|
      && agree == Total(Agrees(), log)
      && championOnly == Total(ChampionAlone(), log)
      && shadowOnly == Total(ShadowAlone(), log)
      && diffSum == Drifted(log)
      && absDiffSum == Apart(log)
    }

    constructor (shadow: string, champion: string)
      ensures Valid() && log == [] && errors == 0
      ensures shadowVersion == shadow && championVersion == champion
    {
      shadowVersion, championVersion := shadow, champion;
      n, agree, championOnly, shadowOnly, errors := 0, 0, 0, 0, 0;
      diffSum, absDiffSum := 0.0, 0.0;
      log := [];
    }

    method Observe(c: Comparison)
      requires Valid()
      modifies this
      ensures Valid() && log == old(log) + [c] && errors == old(errors)
    {
      n := n + 1;
      if c.shadowAnomaly == c.championAnomaly {
        agree := agree + 1;
      } else if c.shadowAnomaly {
        shadowOnly := shadowOnly + 1;
      } else {
        championOnly := championOnly + 1;
      }
      var diff := c.shadowScore - c.championScore;
      diffSum := diffSum + diff;
      absDiffSum := absDiffSum + Abs(diff);
      TotalSnoc(Agrees(), log, c);
      TotalSnoc(ChampionAlone(), log, c);
      TotalSnoc(ShadowAlone(), log, c);
      assert (log + [c])[..|log|] == log;
      log := log + [c];
    }

    method Error()
      requires Valid()
      modifies this
      ensures Valid() && log == old(log) && errors == old(errors) + 1
    {
      errors := errors + 1;
    }

    method GetReport() returns (r: Report)
      requires Valid()
      ensures r == ReportOn(shadowVersion, championVersion, log, errors)
    {
      r := Report(shadowVersion, championVersion, n, agree, championOnly, shadowOnly, errors,
                  Over(agree as real, n, RATE_SCALE), Over(absDiffSum, n, SCORE_SCALE),
                  Over(diffSum, n, SCORE_SCALE));
    }
  }

  // ----- what a report says --------------------------------------------------------------

  // Every comparison is counted once, and the two kinds of disagreement differ by
  // exactly the difference in alarms raised.
  lemma {:induction false} CountsBalance(log: seq<Comparison>)
    ensures Total(Agrees(), log) + Total(ChampionAlone(), log) + Total(ShadowAlone(), log) == |log|
    ensures Total(ChampionAlarm(), log) + Total(ShadowAlone(), log)
            == Total(ShadowAlarm(), log) + Total(ChampionAlone(), log)
  {
    if log != [] {
      CountsBalance(log[1..]);
    }
  }

  lemma {:induction false} BiasWithinMae(log: seq<Comparison>)
    ensures 0.0 <= Apart(log) && -Apart(log) <= Drifted(log) <= Apart(log)
    ensures Apart(log) == 0.0 <==> forall i :: 0 <= i < |log| ==> log[i].shadowScore == log[i].championScore
  {
    if log != [] {
      var rest := log[..|log| - 1];
      BiasWithinMae(rest);
      assert forall i :: 0 <= i < |rest| ==> rest[i] == log[i];
    }
  }

  lemma Ratio(x: real, n: nat)
    requires n > 0
    ensures x / (n as real) * (n as real) == x
  {
  }

  lemma RatioOrder(x: real, y: real, n: nat)
    requires n > 0 && x <= y
    ensures x / (n as real) <= y / (n as real)
  {
    var m := n as real;
    var p, q := x / m, y / m;
    assert p * m == x && q * m == y;
    assert (q - p) * m >= 0.0;
  }

  lemma Negated(x: real, n: nat)
    requires n > 0
    ensures (-x) / (n as real) == -(x / (n as real))
  {
  }

  // The bias is never larger than the mean absolute error, as reported.
  lemma BiasRounded(bias: real, mae: real, n: nat)
    requires n > 0 && -mae <= bias <= mae
    ensures var b, m := Over(bias, n, SCORE_SCALE).value, Over(mae, n, SCORE_SCALE).value; -m <= b <= m
  {
    var low, b, high := (-mae) / (n as real), bias / (n as real), mae / (n as real);
    RatioOrder(bias, mae, n);
    RatioOrder(-mae, bias, n);
    Negated(mae, n);
    RoundedBetween(b, high);
  }

  lemma RoundedBetween(b: real, m: real)
    requires -m <= b <= m
    ensures -Rounded(m, SCORE_SCALE) <= Rounded(b, SCORE_SCALE) <= Rounded(m, SCORE_SCALE)
  {
    RoundedMonotone(b, m, SCORE_SCALE);
    RoundedMonotone(-m, b, SCORE_SCALE);
    RoundedOdd(m, SCORE_SCALE);
  }

  lemma CrossMultiplied(p: real, m: real, s: real, bound: real)
    requires m > 0.0
    ensures p * s >= bound <==> (p * m) * s >= bound * m
    ensures p * s > bound <==> (p * m) * s > bound * m
  {
    var d := p * s - bound;
    assert (p * m) * s == (p * s) * m;
    assert d * m == (p * s) * m - bound * m;
    SameSign(d, m);
  }

  lemma SameSign(d: real, m: real)
    requires m > 0.0
    ensures (d >= 0.0 <==> d * m >= 0.0) && (d > 0.0 <==> d * m > 0.0)
  {
  }

  // The reported rate of x in n reaches k/100000 exactly when the rate is no more than
  // half a unit below, or, for an odd k, less than that.
  predicate ReachesFrom(reported: real, x: real, n: real, k: nat) {
    var scaled, half := x * 100000.0, ((k as real) - 0.5) * n;
    reported >= (k as real) / 100000.0 <==> if k % 2 == 0 then scaled >= half else scaled > half
  }

  lemma RateReported(x: nat, n: nat, k: nat)
    requires n > 0
    ensures ReachesFrom(Over(x as real, n, RATE_SCALE).value, x as real, n as real, k)
  {
    var share := ShareOf(x, n);
    RatioReported(share, x as real, n as real, k);
  }

  lemma ShareOf(x: nat, n: nat) returns (share: real)
    requires n > 0
    ensures share * (n as real) == x as real && Over(x as real, n, RATE_SCALE) == Some(Rounded(share, RATE_SCALE))
  {
    share := (x as real) / (n as real);
    Ratio(x as real, n);
  }

  lemma RatioReported(share: real, x: real, m: real, k: nat)
    requires m > 0.0 && share * m == x
    ensures ReachesFrom(Rounded(share, RATE_SCALE), x, m, k)
  {
    ShareReported(share, k);
    CrossMultiplied(share, m, 100000.0, (k as real) - 0.5);
  }

  lemma ShareReported(share: real, k: nat)
    ensures Rounded(share, RATE_SCALE) >= (k as real) / (RATE_SCALE as real)
            <==> if k % 2 == 0 then share * 100000.0 >= (k as real) - 0.5 else share * 100000.0 > (k as real) - 0.5
  {
    RoundedAtLeast(share, RATE_SCALE, k);
  }

  lemma RateAtMostOne(x: nat, n: nat)
    requires x <= n && n > 0
    ensures Over(x as real, n, RATE_SCALE).value <= 1.0
  {
    RatioOrder(x as real, n as real, n);
    RatioOfSelf(n as real);
    RoundedAtMost((x as real) / (n as real), RATE_SCALE, 100000);
  }

  lemma RatioOfSelf(n: real)
    requires n > 0.0
    ensures n / n == 1.0
  {
  }

  lemma AgreementReported(agree: nat, n: nat)
    requires agree <= n && n > 0
    ensures var rate := Over(agree as real, n, RATE_SCALE).value;
      0.0 <= rate <= 1.0 && (rate == 1.0 <==> 200000 * (n - agree) <= n)
  {
    RateReported(agree, n, 0);
    RateReported(agree, n, 100000);
    RateAtMostOne(agree, n);
    var x, m := agree as real, n as real;
    assert x * 100000.0 >= 99999.5 * m <==> 200000.0 * x >= 199999.0 * m;
  }

  // Rates exist exactly when there is something to rate. The agreement rate lies in
  // [0, 1], and is reported as 1 exactly when verdicts differ in no more than one
  // reading in 200,000. The bias never exceeds the mean absolute error.
  lemma ReportMeans(shadow: string, champion: string, log: seq<Comparison>, errors: nat)
    ensures var r := ReportOn(shadow, champion, log, errors);
      && r.agree + r.championOnly + r.shadowOnly == r.n
      && (r.agreementRate.None? <==> log == []) && (r.scoreMae.None? <==> log == []) && (r.scoreBias.None? <==> log == [])
      && (log != [] ==>
            && 0.0 <= r.agreementRate.value <= 1.0
            && (r.agreementRate.value == 1.0 <==> 200000 * (r.championOnly + r.shadowOnly) <= r.n)
            && -r.scoreMae.value <= r.scoreBias.value <= r.scoreMae.value)
  {
    CountsBalance(log);
    if log != [] {
      BiasWithinMae(log);
      BiasRounded(Drifted(log), Apart(log), |log|);
      AgreementReported(Total(Agrees(), log), |log|);
    }
  }

  // ----- the scores ----------------------------------------------------------------------

  function ShadowScores(log: seq<Comparison>): (x: Tensors.Row)
    ensures |x| == |log|
  {
    seq(|log|, i requires 0 <= i < |log| => log[i].shadowScore)
  }

  function ChampionScores(log: seq<Comparison>): (x: Tensors.Row)
    ensures |x| == |log|
  {
    seq(|log|, i requires 0 <= i < |log| => log[i].championScore)
  }

  // The bias sums what the shadow scores above the champion over all readings.
  lemma {:induction false} DriftedIs(log: seq<Comparison>)
    ensures Drifted(log) == Tensors.Sum(ShadowScores(log)) - Tensors.Sum(ChampionScores(log))
  {
    if log != [] {
      var n := |log| - 1;
      DriftedIs(log[..n]);
      assert ShadowScores(log) == ShadowScores(log[..n]) + [log[n].shadowScore];
      assert ChampionScores(log) == ChampionScores(log[..n]) + [log[n].championScore];
      Tensors.SumAppend(ShadowScores(log[..n]), [log[n].shadowScore]);
      Tensors.SumAppend(ChampionScores(log[..n]), [log[n].championScore]);
    }
  }

  // The absolute error of one comparison is the distance of its scores.
  lemma ApartOne(c: Comparison)
    ensures Apart([c]) == if c.shadowScore >= c.championScore then c.shadowScore - c.championScore
                          else c.championScore - c.shadowScore
  {
    assert [c][..0] == [];
    assert Apart([c][..0]) == 0.0;
  }

  // A reported mean, times the number of comparisons, is within half a millionth of a
  // comparison of the sum.
  predicate MeanReported(reported: real, sum: real, n: real) {
    sum * 1000000.0 - 0.5 * n <= (reported * n) * 1000000.0 <= sum * 1000000.0 + 0.5 * n
  }

  lemma MeanWithin(sum: real, n: nat)
    requires n > 0
    ensures MeanReported(Over(sum, n, SCORE_SCALE).value, sum, n as real)
  {
    var mean := sum / (n as real);
    Ratio(sum, n);
    RoundedWithin(mean, SCORE_SCALE);
    Stretched(Rounded(mean, SCORE_SCALE), mean, n as real, sum);
  }

  lemma Stretched(r: real, mean: real, n: real, sum: real)
    requires n > 0.0 && mean * n == sum && mean * 1000000.0 - 0.5 <= r * 1000000.0 <= mean * 1000000.0 + 0.5
    ensures MeanReported(r, sum, n)
  {
    var d := r - mean;
    assert r * n == sum + d * n;
    SameSign(d * 1000000.0 + 0.5, n);
    SameSign(0.5 - d * 1000000.0, n);
    assert (d * 1000000.0 + 0.5) * n == (d * n) * 1000000.0 + 0.5 * n;
    assert (0.5 - d * 1000000.0) * n == 0.5 * n - (d * n) * 1000000.0;
  }

  // What the two scores in a report are: the mean of the distances, and the mean of the
  // shadow's scores less that of the champion's.
  lemma ScoresReported(shadow: string, champion: string, log: seq<Comparison>, errors: nat)
    requires log != []
    ensures var r := ReportOn(shadow, champion, log, errors);
      && r.shadowVersion == shadow && r.championVersion == champion && r.n == |log| && r.errors == errors
      && MeanReported(r.scoreBias.value, Tensors.Sum(ShadowScores(log)) - Tensors.Sum(ChampionScores(log)), |log| as real)
      && MeanReported(r.scoreMae.value, Apart(log), |log| as real)
  {
    DriftedIs(log);
    MeanWithin(Drifted(log), |log|);
    MeanWithin(Apart(log), |log|);
  }

  // ----- requests report in any order ----------------------------------------------------

  lemma {:induction false} TotalWithout<T>(f: T -> nat, s: seq<T>, i: nat)
    requires i < |s|
    ensures Total(f, s) == f(s[i]) + Total(f, s[..i] + s[i + 1..])
  {
    TotalAppend(f, s[..i], [s[i]] + s[i + 1..]);
    TotalAppend(f, s[..i], s[i + 1..]);
    assert s == s[..i] + ([s[i]] + s[i + 1..]);
    assert ([s[i]] + s[i + 1..])[1..] == s[i + 1..];
  }

  lemma {:induction false} SumsAppend(a: seq<Comparison>, b: seq<Comparison>)
    ensures Drifted(a + b) == Drifted(a) + Drifted(b)
    ensures Apart(a + b) == Apart(a) + Apart(b)
  {
    if b == [] {
      assert a + b == a;
    } else {
      var last := |b| - 1;
      SumsAppend(a, b[..last]);
      assert (a + b)[..|a + b| - 1] == a + b[..last];
    }
  }

  lemma SumsWithout(s: seq<Comparison>, i: nat)
    requires i < |s|
    ensures Drifted(s) == Drifted([s[i]]) + Drifted(s[..i] + s[i + 1..])
    ensures Apart(s) == Apart([s[i]]) + Apart(s[..i] + s[i + 1..])
  {
    var front, back := s[..i], s[i + 1..];
    Around(s, i);
    SumsAppend(front + [s[i]], back);
    SumsAppend(front, [s[i]]);
    SumsAppend(front, back);
  }

  lemma Around<T>(s: seq<T>, i: nat)
    requires i < |s|
    ensures s[..i] + [s[i]] + s[i + 1..] == s
  {
  }

  lemma Cancel<T>(a: multiset<T>, b: multiset<T>, c: multiset<T>, x: T)
    requires multiset{x} + a == b + (multiset{x} + c)
    ensures a == b + c
  {
    assert a == multiset{x} + a - multiset{x};
    assert b + c == b + (multiset{x} + c) - multiset{x};
  }

  lemma RestOfPermutation<T>(a: seq<T>, b: seq<T>, i: nat)
    requires a != [] && multiset(a) == multiset(b)
    requires i < |b| && b[i] == a[0]
    ensures multiset(a[1..]) == multiset(b[..i] + b[i + 1..])
  {
    assert a == [a[0]] + a[1..];
    assert b == b[..i] + ([b[i]] + b[i + 1..]);
    assert multiset(a) == multiset{a[0]} + multiset(a[1..]);
    assert multiset(b) == multiset(b[..i]) + (multiset{b[i]} + multiset(b[i + 1..]));
    Cancel(multiset(a[1..]), multiset(b[..i]), multiset(b[i + 1..]), a[0]);
  }

  lemma FirstElsewhere<T>(a: seq<T>, b: seq<T>) returns (i: nat)
    requires a != [] && multiset(a) == multiset(b)
    ensures i < |b| && b[i] == a[0]
    ensures multiset(a[1..]) == multiset(b[..i] + b[i + 1..])
  {
    assert a[0] in multiset(a);
    assert a[0] in multiset(b);
    i :| 0 <= i < |b| && b[i] == a[0];
    RestOfPermutation(a, b, i);
  }

  lemma {:induction false} TotalPermuted<T>(f: T -> nat, a: seq<T>, b: seq<T>)
    requires multiset(a) == multiset(b)
    ensures |a| == |b| && Total(f, a) == Total(f, b)
  {
    assert |a| == |multiset(a)| && |b| == |multiset(b)|;
    if a != [] {
      var i := FirstElsewhere(a, b);
      TotalPermuted(f, a[1..], b[..i] + b[i + 1..]);
      TotalWithout(f, b, i);
    }
  }

  lemma {:induction false} SumsPermuted(a: seq<Comparison>, b: seq<Comparison>)
    requires multiset(a) == multiset(b)
    ensures Drifted(a) == Drifted(b) && Apart(a) == Apart(b)
  {
    assert |a| == |multiset(a)| && |b| == |multiset(b)|;
    if a != [] {
      var i := FirstElsewhere(a, b);
      SumsPermuted(a[1..], b[..i] + b[i + 1..]);
      SumsWithout(b, i);
      SumsWithout(a, 0);
      assert a[..0] + a[1..] == a[1..];
    }
  }

  // The report depends on which readings were compared, not on the order in which
  // concurrent requests took the tracker's lock.
  lemma OrderDoesNotMatter(
    shadow: string, champion: string, a: seq<Comparison>, b: seq<Comparison>, errors: nat)
    requires multiset(a) == multiset(b)
    ensures ReportOn(shadow, champion, a, errors) == ReportOn(shadow, champion, b, errors)
  {
    TotalPermuted(Agrees(), a, b);
    TotalPermuted(ChampionAlone(), a, b);
    TotalPermuted(ShadowAlone(), a, b);
    SumsPermuted(a, b);
  }
}
