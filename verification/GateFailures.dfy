// Which objections the promotion gate raises, and for what (ml/promote.py).
module GateFailures {
  import opened Wrappers
  import opened Tallies
  import opened Gate
  import opened GateProofs

  type OnFault = (string, FaultSummary)

  // ----- the absolute bar ---------------------------------------------------------------

  predicate Misses(bar: QualityBar, r: FaultSummary) {
    r.episodeRate < bar.episodeRate
  }

  predicate TooSlow(bar: QualityBar, r: FaultSummary) {
    r.median == None || r.median.value > bar.maxMedianLatency
  }

  function Missed(bar: QualityBar): OnFault -> nat {
    (x: OnFault) => if Misses(bar, x.1) then 1 else 0
  }

  function Slow(bar: QualityBar): OnFault -> nat {
    (x: OnFault) => if TooSlow(bar, x.1) then 1 else 0
  }

  lemma AppendOr<T>(a: seq<T>, b: seq<T>, x: T)
    ensures x in a + b <==> x in a || x in b
  {
  }

  // The objection f is to this fault.
  predicate IsAbout(bar: QualityBar, x: OnFault, f: Failure) {
    (f == EpisodesMissed(x.0) && Misses(bar, x.1)) || (f == SlowToDetect(x.0) && TooSlow(bar, x.1))
  }

  lemma FaultNamed(bar: QualityBar, x: OnFault, f: Failure)
    ensures f in FaultFailures(bar, x.0, x.1) <==> IsAbout(bar, x, f)
  {
  }

  // Each fault is named for what is wrong with it.
  lemma {:induction false} FaultsNamed(bar: QualityBar, faults: seq<OnFault>, f: Failure)
    ensures f in AllFaultFailures(bar, faults) <==> exists i :: 0 <= i < |faults| && IsAbout(bar, faults[i], f)
  {
    if faults != [] {
      var n := |faults| - 1;
      var rest := faults[..n];
      FaultsNamed(bar, rest, f);
      FaultNamed(bar, faults[n], f);
      AppendOr(AllFaultFailures(bar, rest), FaultFailures(bar, faults[n].0, faults[n].1), f);
      assert forall i :: 0 <= i < n ==> rest[i] == faults[i];
    }
  }

  lemma {:induction false} FaultsCounted(bar: QualityBar, faults: seq<OnFault>)
    ensures |AllFaultFailures(bar, faults)| == Total(Missed(bar), faults) + Total(Slow(bar), faults)
  {
    if faults != [] {
      var n := |faults| - 1;
      FaultsCounted(bar, faults[..n]);
      assert faults == faults[..n] + [faults[n]];
      TotalSnoc(Missed(bar), faults[..n], faults[n]);
      TotalSnoc(Slow(bar), faults[..n], faults[n]);
    }
  }

  // What the bar objects to, and how many objections there are.
  lemma BarNames(s: Summary, bar: QualityBar, f: Failure)
    ensures f in BarFailures(s, bar) <==>
      || (f == FalseAlarms && s.fpRate > bar.maxFpRate)
      || (exists i :: 0 <= i < |s.perFault| && IsAbout(bar, s.perFault[i], f))
    ensures |BarFailures(s, bar)|
            == Total(Missed(bar), s.perFault) + Total(Slow(bar), s.perFault) + if s.fpRate > bar.maxFpRate then 1 else 0
  {
    FaultsNamed(bar, s.perFault, f);
    FaultsCounted(bar, s.perFault);
  }

  // ----- the comparison -----------------------------------------------------------------

  predicate DistinctFaults(faults: seq<OnFault>) {
    forall i, j :: 0 <= i < j < |faults| ==> faults[i].0 != faults[j].0
  }

  // The champion took a median of m on that fault.
  predicate TookMedian(faults: seq<OnFault>, i: nat, fault: string, m: nat) {
    i < |faults| && faults[i].0 == fault && faults[i].1.median == Some(m)
  }

  lemma {:induction false} LookupIs(faults: seq<OnFault>, i: nat)
    requires DistinctFaults(faults) && i < |faults|
    ensures Lookup(faults, faults[i].0) == Some(faults[i].1)
  {
    if i > 0 {
      LookupIs(faults[1..], i - 1);
    }
  }

  lemma {:induction false} LookupFound(faults: seq<OnFault>, fault: string)
    ensures Lookup(faults, fault).Some? ==>
      exists i :: 0 <= i < |faults| && faults[i].0 == fault && Some(faults[i].1) == Lookup(faults, fault)
  {
    if faults != [] && faults[0].0 != fault {
      LookupFound(faults[1..], fault);
      if Lookup(faults, fault).Some? {
        var i :| 0 <= i < |faults[1..]| && faults[1..][i].0 == fault && Some(faults[1..][i].1) == Lookup(faults, fault);
        assert faults[i + 1].0 == fault;
      }
    }
  }

  // A fault is slower than the champion's when the champion did detect it, and the
  // challenger never did or took at least two readings more.
  lemma SlowerIff(champion: Summary, fault: string, r: FaultSummary)
    requires DistinctFaults(champion.perFault)
    ensures Slower(champion, fault, r) <==>
      exists i: nat, m: nat :: TookMedian(champion.perFault, i, fault, m) && (r.median.None? || r.median.value >= m + 2)
  {
    LookupFound(champion.perFault, fault);
    if Slower(champion, fault, r) {
      var i :| 0 <= i < |champion.perFault| && champion.perFault[i].0 == fault
               && Some(champion.perFault[i].1) == Lookup(champion.perFault, fault);
      assert TookMedian(champion.perFault, i, fault, champion.perFault[i].1.median.value);
    }
    if i: nat, m: nat :| TookMedian(champion.perFault, i, fault, m) && (r.median.None? || r.median.value >= m + 2) {
      LookupIs(champion.perFault, i);
    }
  }

  lemma {:induction false} SlowerNamed(champion: Summary, faults: seq<OnFault>, f: Failure)
    ensures f in AllSlower(champion, faults) <==>
      exists i :: 0 <= i < |faults| && f == SlowerThanChampion(faults[i].0) && Slower(champion, faults[i].0, faults[i].1)
  {
    if faults != [] {
      var n := |faults| - 1;
      SlowerNamed(champion, faults[..n], f);
      AppendOr(AllSlower(champion, faults[..n]), When(Slower(champion, faults[n].0, faults[n].1), SlowerThanChampion(faults[n].0)), f);
      assert forall i :: 0 <= i < n ==> faults[..n][i] == faults[i];
    }
  }

  lemma RegressionNames(challenger: Summary, champion: Summary, f: Failure)
    ensures f in Regressions(challenger, champion) <==>
      || (f == FewerEpisodes && challenger.detected < champion.detected)
      || (f == MoreFalseAlarms && challenger.fpRate > champion.fpRate + 0.001)
      || (exists i :: 0 <= i < |challenger.perFault| && f == SlowerThanChampion(challenger.perFault[i].0)
            && Slower(champion, challenger.perFault[i].0, challenger.perFault[i].1))
  {
    SlowerNamed(champion, challenger.perFault, f);
  }

  // ----- online evidence ----------------------------------------------------------------

  // Evidence about another model is told apart from weak evidence about this one.
  lemma ShadowNames(e: Evidence, version: string, bar: QualityBar, f: Failure)
    ensures f in ShadowFailures(e, version, bar) <==>
      if e.shadowVersion != Some(version) then f == OtherModelShadowed
      else
        || (f == ThinEvidence && (if e.n == None then 0 else e.n.value) < bar.shadowMinN)
        || (f == LowAgreement && (e.rate == None || e.rate.value < bar.shadowMinAgreement))
        || (f == ShadowErrors && e.errors != None && e.errors != Some(0))
  {
  }

  // ----- the decision -------------------------------------------------------------------

  // A run fails exactly when there is no challenger, it cannot be evaluated, there is a
  // champion that cannot be loaded or evaluated, or parity or the report is missing.
  lemma FailedIff(g: Settings, files: Files, run: Run)
    ensures Decide(g, files, run) == Failed <==>
      || run.challenger == None
      || g.assess(run.challenger.value.weights) == None
      || (g.ChampionEntry() in files &&
           (!files[g.ChampionEntry()].Model? || g.assess(files[g.ChampionEntry()].bundle.weights) == None))
      || run.parity == None
      || run.shadow == Unreadable
  {
  }

  lemma InFour<T>(a: seq<T>, b: seq<T>, c: seq<T>, d: seq<T>, x: T)
    ensures x in a + b + c + d <==> x in a || x in b || x in c || x in d
  {
  }

  // A refusal names every objection of the bar, of the parity check, of the comparison
  // with the champion there is, and of the evidence it was given; and no other.
  lemma RefusalNames(g: Settings, files: Files, run: Run, failures: seq<Failure>, f: Failure)
    requires Decide(g, files, run) == Refused(failures)
    ensures failures != []
    ensures f in failures <==>
      var challenger := g.assess(run.challenger.value.weights).value;
      var e := g.ChampionEntry();
      || f in BarFailures(challenger, g.bar)
      || (f == OnnxParity && !(run.parity.value.0 < g.bar.onnxRelMae && run.parity.value.1 > g.bar.onnxAgreement))
      || (e in files && f in Regressions(challenger, g.assess(files[e].bundle.weights).value))
      || (run.shadow.Given? && f in ShadowFailures(run.shadow.evidence, run.challenger.value.version, g.bar))
  {
    var challenger := g.assess(run.challenger.value.weights).value;
    var champion := ChampionSummary(g, files);
    InFour(
      BarFailures(challenger, g.bar), When(ParityFails(run.parity.value, g.bar), OnnxParity),
      if champion.Some? then Regressions(challenger, champion.value) else [],
      if run.shadow.Given? then ShadowFailures(run.shadow.evidence, run.challenger.value.version, g.bar) else [], f);
  }

  // ----- what a save leaves -------------------------------------------------------------

  lemma DistinctNames(name: string)
    ensures |{name, SignatureName(name), ManifestName(name)}| == 3
    ensures SignatureName(name) != CARD_NAME && ManifestName(name) != CARD_NAME
  {
    OwnNames(name);
    var sig, manifest := SignatureName(name), ManifestName(name);
    assert sig[|sig| - 1] == 'g' && manifest[|manifest| - 1] == 'n' && CARD_NAME[|CARD_NAME| - 1] == 'd';
  }

  // The four files of a save all speak of the bundle saved, without a key an old
  // signature is gone, and nothing else changes. A model named like its card is lost.
  lemma SavedAt(files: Files, dir: Directory, name: string, b: Bundle, signs: bool, e: Entry)
    ensures At(Saved(files, dir, name, b, signs), e) ==
      if e == Entry(dir, CARD_NAME) then Some(Card(b))
      else if e == Entry(dir, name) then Some(Model(b))
      else if e == Entry(dir, SignatureName(name)) then (if signs then Some(Signature(b)) else None)
      else if e == Entry(dir, ManifestName(name)) then Some(Manifest(b))
      else At(files, e)
  {
    DistinctNames(name);
  }

  // What is before the last dot is the stem, unless nothing is before it or after it.
  lemma StemOf(base: string, ext: string)
    requires base != "" && ext != "" && '.' !in ext
    ensures Stem(base + "." + ext) == base
    ensures SignatureName(base + "." + ext) == base + "." + ext + ".sig"
    ensures ManifestName(base + "." + ext) == base + ".manifest.json"
  {
    var name := base + "." + ext;
    assert name[|base|] == '.';
    forall k | |base| < k < |name|
      ensures name[k] != '.'
    {
      assert name[k] == ext[k - |base| - 1] && ext[k - |base| - 1] in ext;
    }
    assert LastDot(name) == |base|;
    assert name[..|base|] == base;
  }

  // After a promotion the champion's files are those of the challenger, with its own
  // measurements.
  lemma PromotedWhole(g: Settings, files: Files, run: Run)
    requires Decide(g, files, run) == Promoted && g.championName != CARD_NAME
    ensures var after, d := FilesAfter(g, files, run), g.resolve(g.championDir);
            var b := Bundle(run.challenger.value.version, run.challenger.value.weights, g.assess(run.challenger.value.weights));
            && At(after, g.ChampionEntry()) == Some(Model(b))
            && At(after, Entry(d, SignatureName(g.championName))) == (if g.signs then Some(Signature(b)) else None)
            && At(after, Entry(d, ManifestName(g.championName))) == Some(Manifest(b))
            && At(after, Entry(d, CARD_NAME)) == Some(Card(b))
  {
    var d := g.resolve(g.championDir);
    var saved := Measured(g, run.challenger.value);
    var archived := Archived(g, files, saved, []);
    DistinctNames(g.championName);
    SavedAt(archived, d, g.championName, saved, g.signs, g.ChampionEntry());
    SavedAt(archived, d, g.championName, saved, g.signs, Entry(d, SignatureName(g.championName)));
    SavedAt(archived, d, g.championName, saved, g.signs, Entry(d, ManifestName(g.championName)));
    SavedAt(archived, d, g.championName, saved, g.signs, Entry(d, CARD_NAME));
  }

  // After a refusal the report in the output directory names the objections, and the
  // candidate beside it is the challenger that was refused, with its measurements.
  lemma RefusedReported(g: Settings, files: Files, run: Run, failures: seq<Failure>)
    requires Decide(g, files, run) == Refused(failures)
    ensures var after := FilesAfter(g, files, run);
            var b := Bundle(run.challenger.value.version, run.challenger.value.weights, g.assess(run.challenger.value.weights));
            && At(after, g.OutEntry("report.md")) == Some(Report(b.version, failures))
            && At(after, g.OutEntry("model.joblib")) == Some(Model(b))
            && At(after, g.OutEntry("model.joblib.sig")) == (if g.signs then Some(Signature(b)) else None)
            && At(after, g.OutEntry("model.manifest.json")) == Some(Manifest(b))
            && At(after, g.OutEntry("MODEL_CARD.md")) == Some(Card(b))
  {
    ArchiveNames();
    var b := Measured(g, run.challenger.value);
    SavedAt(files, g.resolve(g.outDir), MODEL_NAME, b, g.signs, g.OutEntry("model.joblib.sig"));
    SavedAt(files, g.resolve(g.outDir), MODEL_NAME, b, g.signs, g.OutEntry("model.manifest.json"));
    SavedAt(files, g.resolve(g.outDir), MODEL_NAME, b, g.signs, g.OutEntry("model.joblib"));
    SavedAt(files, g.resolve(g.outDir), MODEL_NAME, b, g.signs, g.OutEntry("MODEL_CARD.md"));
  }
}
