// What the promotion gate guarantees about the champion, over any sequence of runs.
module GateProofs {
  import opened Wrappers
  import opened Tallies
  import opened Gate
  import Evaluation
  import Simulator
  import ShadowTracking

  // ----- the absolute bar -------------------------------------------------------------------

  predicate FaultClears(bar: QualityBar, r: FaultSummary) {
    r.episodeRate >= bar.episodeRate && r.median.Some? && r.median.value <= bar.maxMedianLatency
  }

  predicate Clears(s: Summary, bar: QualityBar) {
    && s.fpRate <= bar.maxFpRate
    && forall i :: 0 <= i < |s.perFault| ==> FaultClears(bar, s.perFault[i].1)
  }

  lemma {:induction false} FaultsPass(bar: QualityBar, faults: seq<(string, FaultSummary)>)
    ensures AllFaultFailures(bar, faults) == [] <==> forall i :: 0 <= i < |faults| ==> FaultClears(bar, faults[i].1)
  {
    if faults != [] {
      var rest := faults[..|faults| - 1];
      FaultsPass(bar, rest);
      assert forall i :: 0 <= i < |rest| ==> rest[i] == faults[i];
      assert AllFaultFailures(bar, faults) == [] <==>
        AllFaultFailures(bar, rest) == [] && FaultFailures(bar, faults[|rest|].0, faults[|rest|].1) == [];
    }
  }

  // The bar finds no failure exactly when every criterion is met.
  lemma BarPass(s: Summary, bar: QualityBar)
    ensures BarFailures(s, bar) == [] <==> Clears(s, bar)
  {
    FaultsPass(bar, s.perFault);
  }

  // ----- the comparison ---------------------------------------------------------------------

  predicate NotSlower(challenger: Summary, champion: Summary) {
    forall i :: 0 <= i < |challenger.perFault| ==> !Slower(champion, challenger.perFault[i].0, challenger.perFault[i].1)
  }

  lemma {:induction false} NoneSlower(champion: Summary, faults: seq<(string, FaultSummary)>)
    ensures AllSlower(champion, faults) == [] <==>
      forall i :: 0 <= i < |faults| ==> !Slower(champion, faults[i].0, faults[i].1)
  {
    if faults != [] {
      var rest := faults[..|faults| - 1];
      NoneSlower(champion, rest);
      assert forall i :: 0 <= i < |rest| ==> rest[i] == faults[i];
    }
  }

  lemma NoRegression(challenger: Summary, champion: Summary)
    ensures Regressions(challenger, champion) == [] <==>
      && challenger.detected >= champion.detected
      && challenger.fpRate <= champion.fpRate + FP_TOLERANCE
      && NotSlower(challenger, champion)
  {
    NoneSlower(champion, challenger.perFault);
  }

  // ----- measured with the same settings ------------------------------------------------------

  // What every evaluation with the same number of episodes satisfies.
  ghost predicate FromEvaluation(s: Summary, episodes: nat) {
    && episodes > 0
    && |s.perFault| == |Simulator.FAULT_TYPES|
    && (forall i :: 0 <= i < |s.perFault| ==>
          var r := s.perFault[i].1;
          && s.perFault[i].0 == Simulator.FAULT_TYPES[i]
          && r.episodes == episodes && 0 <= r.detected <= episodes
          && (r.episodeRate == 1.0 <==> r.detected == episodes) && r.episodeRate <= 1.0
          && (r.median.Some? <==> r.detected > 0))
    && s.detected == s.perFault[0].1.detected + s.perFault[1].1.detected + s.perFault[2].1.detected
    && s.total == 3 * episodes
  }

  lemma SumOfThree(f: ((string, Evaluation.FaultResult)) -> int, x: seq<(string, Evaluation.FaultResult)>)
    requires |x| == 3
    ensures SumOf(f, x) == f(x[0]) + f(x[1]) + f(x[2])
  {
    assert x[1..][1..] == x[2..] && x[2..][1..] == [];
    assert SumOf(f, x[2..]) == f(x[2]);
    assert SumOf(f, x[1..]) == f(x[1]) + SumOf(f, x[2..]);
  }

  lemma EvaluationSummarised(
    r: Evaluation.Results, runs: seq<seq<Evaluation.Episode>>, flag: Evaluation.Flag, episodes: nat, ticks: int)
    requires episodes > 0 && |r.faults| == 3 && Evaluation.Covers(r.faults, runs, flag, episodes, ticks)
    ensures FromEvaluation(Summarize(r), episodes)
    ensures Summarize(r).fpRate == r.fpRate
    ensures forall i :: 0 <= i < 3 ==>
              var x, y := Summarize(r).perFault[i], r.faults[i];
              x.0 == y.0 && x.1.episodeRate == y.1.episodeRate && x.1.median == y.1.median && x.1.recall == y.1.recall
              && x.1.detected == y.1.detected
  {
    SumOfThree((x: (string, Evaluation.FaultResult)) => x.1.episodes, r.faults);
    SumOfThree((x: (string, Evaluation.FaultResult)) => x.1.detected, r.faults);
    forall i | 0 <= i < 3
      ensures r.faults[i].1.detected <= episodes && r.faults[i].1.episodeRate <= 1.0
      ensures r.faults[i].1.episodeRate == 1.0 <==> r.faults[i].1.detected == episodes
      ensures r.faults[i].1.median.Some? <==> r.faults[i].1.detected > 0
    {
      Evaluation.ResultSound(r.faults[i].1, flag, runs[i], Simulator.FAULT_TYPES[i], episodes, ticks);
    }
  }

  lemma ClearedDetectsAll(s: Summary, episodes: nat)
    requires FromEvaluation(s, episodes) && Clears(s, DEFAULT_BAR)
    ensures s.detected == 3 * episodes
    ensures forall i :: 0 <= i < 3 ==> s.perFault[i].1.median.Some? && s.perFault[i].1.median.value <= 1
  {
    assert FaultClears(DEFAULT_BAR, s.perFault[0].1) && FaultClears(DEFAULT_BAR, s.perFault[1].1)
        && FaultClears(DEFAULT_BAR, s.perFault[2].1);
  }

  // With the default bar, a challenger that clears it can be refused by the comparison
  // for its false alarms and for nothing else: the other two criteria are dead code.
  lemma OnlyFalseAlarmsRefuse(challenger: Summary, champion: Summary, episodes: nat)
    requires FromEvaluation(challenger, episodes) && FromEvaluation(champion, episodes)
    requires Clears(challenger, DEFAULT_BAR)
    ensures Regressions(challenger, champion) ==
      if challenger.fpRate > champion.fpRate + FP_TOLERANCE then [MoreFalseAlarms] else []
  {
    ClearedDetectsAll(challenger, episodes);
    NoneSlower(champion, challenger.perFault);
    assert champion.detected <= 3 * episodes;
  }

  // ----- runs -------------------------------------------------------------------------------

  function Runs(g: Settings, files: Files, runs: seq<Run>): Files {
    if runs == [] then files else FilesAfter(g, Runs(g, files, runs[..|runs| - 1]), runs[|runs| - 1])
  }

  function Promotions(g: Settings, files: Files, runs: seq<Run>): nat {
    if runs == [] then 0
    else
      var earlier := runs[..|runs| - 1];
      Promotions(g, files, earlier)
      + if Decide(g, Runs(g, files, earlier), runs[|runs| - 1]).Promoted? then 1 else 0
  }

  function Champion(g: Settings, files: Files): Option<Bundle> {
    var e := g.ChampionEntry();
    if e in files && files[e].Model? then Some(files[e].bundle) else None
  }

  lemma JoinedEmpty<T>(a: seq<T>, b: seq<T>, c: seq<T>, d: seq<T>)
    ensures a + b + c + d == [] <==> a == [] && b == [] && c == [] && d == []
  {
  }

  // A promoted challenger cleared the bar, did not regress, and passed parity and,
  // where it was asked for, the online check; and nothing else is promoted.
  lemma PromotedIff(g: Settings, files: Files, run: Run)
    ensures Decide(g, files, run).Promoted? <==>
      && Objections(g, files, run).Some?
      && var challenger := g.assess(run.challenger.value.weights).value;
      && Clears(challenger, g.bar)
      && run.parity.value.0 < g.bar.onnxRelMae && run.parity.value.1 > g.bar.onnxAgreement
      && (Champion(g, files).Some? ==> Regressions(challenger, ChampionSummary(g, files).value) == [])
      && (run.shadow.Given? ==> ShadowFailures(run.shadow.evidence, run.challenger.value.version, g.bar) == [])
  {
    if Objections(g, files, run).Some? {
      var challenger := g.assess(run.challenger.value.weights).value;
      var champion := ChampionSummary(g, files);
      BarPass(challenger, g.bar);
      JoinedEmpty(
        BarFailures(challenger, g.bar), When(ParityFails(run.parity.value, g.bar), OnnxParity),
        if champion.Some? then Regressions(challenger, champion.value) else [],
        if run.shadow.Given? then ShadowFailures(run.shadow.evidence, run.challenger.value.version, g.bar) else []);
    }
  }

  // ----- which files a run writes ---------------------------------------------------------

  function At(files: Files, e: Entry): Option<Content> {
    if e in files then Some(files[e]) else None
  }

  // The entries an archive writes, and with them the one it removes.
  function Written(g: Settings): set<Entry> {
    {g.OutEntry(MODEL_NAME), g.OutEntry("model.manifest.json"), g.OutEntry(CARD_NAME), g.OutEntry(REPORT_NAME)}
    + if g.signs then {g.OutEntry("model.joblib.sig")} else {}
  }

  function Touched(g: Settings): set<Entry> {
    Written(g) + {g.OutEntry("model.joblib.sig")}
  }

  lemma ArchiveNames()
    ensures SignatureName(MODEL_NAME) == "model.joblib.sig" && ManifestName(MODEL_NAME) == "model.manifest.json"
  {
    assert MODEL_NAME[5] == '.';
    assert LastDot(MODEL_NAME) == 5;
    assert MODEL_NAME[..5] == "model";
  }

  // What an archive leaves in an entry.
  lemma ArchivedAt(g: Settings, files: Files, b: Bundle, failures: seq<Failure>, e: Entry)
    ensures var after := At(Archived(g, files, b, failures), e);
      && (e == g.OutEntry(MODEL_NAME) ==> after == Some(Model(b)))
      && (e in Written(g) && e != g.OutEntry(MODEL_NAME) ==> after.Some? && !after.value.Model?)
      && (e in Touched(g) && e !in Written(g) ==> after == None)
      && (e !in Touched(g) ==> after == At(files, e))
  {
    ArchiveNames();
  }

  // A save does not overwrite the model it has just placed, unless that is named like
  // the model card.
  lemma OwnNames(name: string)
    ensures SignatureName(name) != name && ManifestName(name) != name
  {
    var stem := Stem(name);
    assert ManifestName(name)[|stem| + 9] == '.';
  }

  lemma PlacedAt(files: Files, dir: Directory, name: string, b: Bundle, signs: bool)
    ensures var after := At(Saved(files, dir, name, b, signs), Entry(dir, name));
      after == Some(if name == CARD_NAME then Card(b) else Model(b))
  {
    OwnNames(name);
  }

  // A run that does not promote leaves an entry, the champion's or any other, as it was if
  // and only if it failed, the archive does not touch the entry, or it happens to leave
  // the same in it.
  lemma RefusalKeepsChampion(g: Settings, files: Files, run: Run, e: Entry)
    requires !Decide(g, files, run).Promoted?
    ensures At(FilesAfter(g, files, run), e) == At(files, e) <==>
      || Decide(g, files, run).Failed? || e !in Touched(g)
      || At(files, e) == At(Archived(g, map[], Measured(g, run.challenger.value), Decide(g, files, run).failures), e)
    ensures Decide(g, files, run).Failed? ==> FilesAfter(g, files, run) == files
  {
    match Decide(g, files, run)
    case Failed =>
    case Refused(failures) => SameArchive(g, files, Measured(g, run.challenger.value), failures, e);
  }

  // What an archive leaves in its own entries does not depend on what was there.
  lemma SameArchive(g: Settings, files: Files, b: Bundle, failures: seq<Failure>, e: Entry)
    ensures e in Touched(g) ==> At(Archived(g, files, b, failures), e) == At(Archived(g, map[], b, failures), e)
    ensures e !in Touched(g) ==> At(Archived(g, files, b, failures), e) == At(files, e)
  {
    ArchivedAt(g, files, b, failures, e);
    ArchiveNames();
  }

  // ----- the champion's own manifest, card and signature -----------------------------------

  // The files that describe the champion: its bundle, and what save_bundle puts beside it.
  function ChampionFiles(g: Settings): set<Entry> {
    var d := g.resolve(g.championDir);
    {g.ChampionEntry(), Entry(d, SignatureName(g.championName)), Entry(d, ManifestName(g.championName)),
     Entry(d, CARD_NAME)}
  }

  ghost predicate AllKept(g: Settings, files: Files, run: Run) {
    !Decide(g, files, run).Promoted? ==>
      forall e :: e in ChampionFiles(g) ==> At(FilesAfter(g, files, run), e) == At(files, e)
  }

  // A run with a challenger of these weights, and parity and the rest in order.
  function Plain(g: Settings, w: nat): Run {
    Run(Some(Bundle("", w, None)), Some((g.bar.onnxRelMae - 1.0, g.bar.onnxAgreement + 1.0)), NotGiven)
  }

  lemma WeakRefused(g: Settings, files: Files, w: nat)
    requires g.assess(w).Some? && !Clears(g.assess(w).value, g.bar)
    requires g.ChampionEntry() in files ==> ChampionSummary(g, files).Some?
    ensures Decide(g, files, Plain(g, w)).Refused?
  {
    PromotedIff(g, files, Plain(g, w));
  }

  // Where some model does not clear the bar: a refusal leaves bundle, signature, manifest
  // and card of the champion alone, whatever the files and the run, if and only if the
  // candidates go to another directory. Another name in the same directory is not
  // enough: the card has the same name for all.
  lemma AllKeptIff(g: Settings, w: nat)
    requires g.assess(w).Some? && !Clears(g.assess(w).value, g.bar)
    ensures (forall files, run :: AllKept(g, files, run)) <==> g.resolve(g.outDir) != g.resolve(g.championDir)
  {
    if g.resolve(g.outDir) != g.resolve(g.championDir) {
      forall files, run
        ensures AllKept(g, files, run)
      {
        if !Decide(g, files, run).Promoted? {
          forall e | e in ChampionFiles(g)
            ensures At(FilesAfter(g, files, run), e) == At(files, e)
          {
            RefusalKeepsChampion(g, files, run, e);
          }
        }
      }
    } else {
      CardReplaced(g, w);
      assert !AllKept(g, map[], Plain(g, w));
    }
  }

  lemma CardReplaced(g: Settings, w: nat)
    requires g.assess(w).Some? && !Clears(g.assess(w).value, g.bar) && g.resolve(g.outDir) == g.resolve(g.championDir)
    ensures !AllKept(g, map[], Plain(g, w))
  {
    var run, card := Plain(g, w), g.OutEntry(CARD_NAME);
    WeakRefused(g, map[], w);
    ArchivedAt(g, map[], Measured(g, run.challenger.value), Decide(g, map[], run).failures, card);
    assert card in ChampionFiles(g) && At(map[], card) == None;
    assert At(FilesAfter(g, map[], run), card) != None;
  }

  // ----- what a champion keeps ----------------------------------------------------------------

  ghost predicate ChampionClears(g: Settings, files: Files) {
    g.ChampionEntry() in files ==>
      ChampionSummary(g, files).Some? && Clears(ChampionSummary(g, files).value, g.bar)
  }

  // Archives do not write over the champion, nor its own card.
  predicate BarSafe(g: Settings) {
    g.ChampionEntry() !in Written(g) && g.championName != CARD_NAME
  }

  // And they do not remove it as a signature of theirs.
  predicate Separate(g: Settings) {
    g.ChampionEntry() !in Touched(g) && g.championName != CARD_NAME
  }

  // What a run does to the champion's entry.
  lemma ChampionAfter(g: Settings, files: Files, run: Run)
    requires BarSafe(g)
    ensures var now := At(FilesAfter(g, files, run), g.ChampionEntry());
      if Decide(g, files, run).Promoted? then now == Some(Model(Measured(g, run.challenger.value)))
      else now == At(files, g.ChampionEntry()) || (now == None && !Separate(g))
  {
    var e := g.ChampionEntry();
    match Decide(g, files, run)
    case Failed =>
    case Refused(failures) => ArchivedAt(g, files, Measured(g, run.challenger.value), failures, e);
    case Promoted =>
      var saved := Measured(g, run.challenger.value);
      PlacedAt(Archived(g, files, saved, []), e.dir, e.name, saved, g.signs);
  }

  // Starting from no champion, or from one that clears the bar, every champion ever
  // installed clears it.
  lemma {:induction false} ChampionAlwaysClears(g: Settings, files: Files, runs: seq<Run>)
    requires BarSafe(g) && ChampionClears(g, files)
    ensures ChampionClears(g, Runs(g, files, runs))
  {
    if runs != [] {
      var earlier := runs[..|runs| - 1];
      ChampionAlwaysClears(g, files, earlier);
      PromotedIff(g, Runs(g, files, earlier), runs[|runs| - 1]);
      ChampionAfter(g, Runs(g, files, earlier), runs[|runs| - 1]);
    }
  }

  lemma OneRun(g: Settings, files: Files, run: Run)
    ensures Runs(g, files, [run]) == FilesAfter(g, files, run)
    ensures Promotions(g, files, [run]) == if Decide(g, files, run).Promoted? then 1 else 0
  {
    assert [run][..0] == [];
    assert Runs(g, files, [run][..0]) == files && Promotions(g, files, [run][..0]) == 0;
  }

  ghost predicate BarKept(g: Settings, files: Files, runs: seq<Run>) {
    ChampionClears(g, files) ==> ChampionClears(g, Runs(g, files, runs))
  }

  // A refused challenger, or the report or the card of one, in the champion's place.
  lemma OverwrittenBreaksBar(g: Settings, w: nat)
    requires g.ChampionEntry() in Written(g)
    requires g.assess(w).Some? && !Clears(g.assess(w).value, g.bar)
    ensures !BarKept(g, map[], [Plain(g, w)])
  {
    WeakRefused(g, map[], w);
    var run := Plain(g, w);
    ArchivedAt(g, map[], Measured(g, run.challenger.value), Decide(g, map[], run).failures, g.ChampionEntry());
    OneRun(g, map[], Plain(g, w));
  }

  // A promoted one whose card takes its own place.
  lemma CardBreaksBar(g: Settings, strong: nat)
    requires g.ChampionEntry() !in Written(g) && g.championName == CARD_NAME
    requires g.assess(strong).Some? && Clears(g.assess(strong).value, g.bar)
    ensures !BarKept(g, map[], [Plain(g, strong)])
  {
    var run, e := Plain(g, strong), g.ChampionEntry();
    PromotedIff(g, map[], run);
    var saved := Measured(g, run.challenger.value);
    PlacedAt(Archived(g, map[], saved, []), e.dir, e.name, saved, g.signs);
    OneRun(g, map[], run);
  }

  // Where one model clears the bar and another does not, every champion clears it, from
  // all starts and over all runs, if and only if archives do not write over the
  // champion's entry and its name is not that of the model card. Whether the texts of
  // the paths differ is beside the point: the default champion path is absolute, and a
  // relative output directory can lead to the same place.
  lemma BarKeptIff(g: Settings, strong: nat, w: nat)
    requires g.assess(strong).Some? && Clears(g.assess(strong).value, g.bar)
    requires g.assess(w).Some? && !Clears(g.assess(w).value, g.bar)
    ensures (forall files, runs :: BarKept(g, files, runs)) <==> BarSafe(g)
  {
    if BarSafe(g) {
      forall files, runs
        ensures BarKept(g, files, runs)
      {
        if ChampionClears(g, files) {
          ChampionAlwaysClears(g, files, runs);
        }
      }
    } else if g.ChampionEntry() in Written(g) {
      OverwrittenBreaksBar(g, w);
    } else {
      CardBreaksBar(g, strong);
    }
  }

  // Once there is a champion there is always one.
  lemma {:induction false} ChampionRemains(g: Settings, files: Files, runs: seq<Run>)
    requires Separate(g) && g.ChampionEntry() in files
    ensures g.ChampionEntry() in Runs(g, files, runs)
  {
    if runs != [] {
      ChampionRemains(g, files, runs[..|runs| - 1]);
      ChampionAfter(g, Runs(g, files, runs[..|runs| - 1]), runs[|runs| - 1]);
    }
  }

  // How much worse k promotions can make a champion: false alarms grow by at most
  // 0.001 each, and the number of episodes detected never falls.
  ghost predicate DriftedBy(start: Summary, now: Summary, k: nat) {
    && now.fpRate <= start.fpRate + FP_TOLERANCE * (k as real)
    && now.detected >= start.detected
  }

  lemma {:induction false} DriftBounded(g: Settings, files: Files, runs: seq<Run>)
    requires Separate(g) && ChampionSummary(g, files).Some?
    ensures var now := ChampionSummary(g, Runs(g, files, runs));
      now.Some? && DriftedBy(ChampionSummary(g, files).value, now.value, Promotions(g, files, runs))
  {
    if runs != [] {
      var earlier, last := runs[..|runs| - 1], runs[|runs| - 1];
      DriftBounded(g, files, earlier);
      var was := Runs(g, files, earlier);
      PromotedIff(g, was, last);
      ChampionAfter(g, was, last);
      if Decide(g, was, last).Promoted? {
        NoRegression(g.assess(last.challenger.value.weights).value, ChampionSummary(g, was).value);
      }
    }
  }

  ghost predicate DriftKept(g: Settings, files: Files, runs: seq<Run>) {
    ChampionSummary(g, files).Some? ==>
      var now := ChampionSummary(g, Runs(g, files, runs));
      now.Some? && DriftedBy(ChampionSummary(g, files).value, now.value, Promotions(g, files, runs))
  }

  // A challenger refused for its false alarms, where its archive touches the champion.
  lemma TouchedBreaksDrift(g: Settings, start: nat, w: nat) returns (files: Files)
    requires g.ChampionEntry() in Touched(g) && g.assess(start).Some? && g.assess(w).Some?
    requires g.assess(w).value.fpRate > g.assess(start).value.fpRate + FP_TOLERANCE
    ensures !DriftKept(g, files, [Plain(g, w)])
  {
    files := map[g.ChampionEntry() := Model(Bundle("", start, None))];
    PromotedIff(g, files, Plain(g, w));
    NoRegression(g.assess(w).value, g.assess(start).value);
    var run := Plain(g, w);
    ArchivedAt(g, files, Measured(g, run.challenger.value), Decide(g, files, run).failures, g.ChampionEntry());
    OneRun(g, files, Plain(g, w));
  }

  // A champion whose successor's card takes its place.
  lemma CardBreaksDrift(g: Settings, start: nat, next: nat) returns (files: Files)
    requires g.ChampionEntry() !in Touched(g) && g.championName == CARD_NAME
    requires g.assess(start).Some? && g.assess(next).Some? && Clears(g.assess(next).value, g.bar)
    requires Regressions(g.assess(next).value, g.assess(start).value) == []
    ensures !DriftKept(g, files, [Plain(g, next)])
  {
    var run, e := Plain(g, next), g.ChampionEntry();
    files := map[e := Model(Bundle("", start, None))];
    PromotedIff(g, files, run);
    var saved := Measured(g, run.challenger.value);
    PlacedAt(Archived(g, files, saved, []), e.dir, e.name, saved, g.signs);
    OneRun(g, files, run);
  }

  // Where one model can follow another, and some model raises more false alarms than that
  // by more than the tolerance, the bound holds from all starts and over all runs if and
  // only if the archive does not touch the champion's entry and its name is not that of
  // the model card.
  lemma DriftKeptIff(g: Settings, start: nat, next: nat, w: nat)
    requires g.assess(start).Some? && g.assess(next).Some? && Clears(g.assess(next).value, g.bar)
    requires Regressions(g.assess(next).value, g.assess(start).value) == []
    requires g.assess(w).Some? && g.assess(w).value.fpRate > g.assess(start).value.fpRate + FP_TOLERANCE
    ensures (forall files, runs :: DriftKept(g, files, runs)) <==> Separate(g)
  {
    if Separate(g) {
      forall files, runs
        ensures DriftKept(g, files, runs)
      {
        if ChampionSummary(g, files).Some? {
          DriftBounded(g, files, runs);
        }
      }
    } else if g.ChampionEntry() in Touched(g) {
      var files := TouchedBreaksDrift(g, start, w);
      assert !DriftKept(g, files, [Plain(g, w)]);
    } else {
      var files := CardBreaksDrift(g, start, next);
      assert !DriftKept(g, files, [Plain(g, next)]);
    }
  }

  function Min(x: real, y: real): real {
    if x < y then x else y
  }

  // After k promotions the champion's false-alarm rate is at most the smaller of the
  // bar's budget and the first champion's rate plus k tolerances.
  lemma {:induction false} FalseAlarmsBounded(g: Settings, files: Files, runs: seq<Run>)
    requires Separate(g) && g.bar == DEFAULT_BAR
    requires g.ChampionEntry() in files && ChampionClears(g, files)
    ensures ChampionSummary(g, Runs(g, files, runs)).Some?
    ensures ChampionSummary(g, Runs(g, files, runs)).value.fpRate
            <= Min(0.006, ChampionSummary(g, files).value.fpRate + 0.001 * (Promotions(g, files, runs) as real))
  {
    ChampionAlwaysClears(g, files, runs);
    ChampionRemains(g, files, runs);
    DriftBounded(g, files, runs);
    BothBounds(ChampionSummary(g, files).value, ChampionSummary(g, Runs(g, files, runs)).value, Promotions(g, files, runs));
  }

  lemma BothBounds(start: Summary, now: Summary, k: nat)
    requires Clears(now, DEFAULT_BAR) && DriftedBy(start, now, k)
    ensures now.fpRate <= Min(0.006, start.fpRate + 0.001 * (k as real))
  {
  }

  // ----- online evidence ----------------------------------------------------------------------

  function FromReport(r: ShadowTracking.Report): Evidence {
    Evidence(Some(r.shadowVersion), Some(r.n), r.agreementRate, Some(r.errors))
  }

  // A report passes the online check exactly when it is about this model, covers enough
  // readings, has a high enough rate, and no scoring failed.
  lemma ShadowPass(e: Evidence, version: string, bar: QualityBar)
    ensures ShadowFailures(e, version, bar) == [] <==>
      && e.shadowVersion == Some(version)
      && Amount(e.n) >= bar.shadowMinN
      && e.rate.Some? && e.rate.value >= bar.shadowMinAgreement
      && Amount(e.errors) == 0
  {
  }

  lemma DefaultAgreement(x: nat, n: nat)
    requires n > 0
    ensures ShadowTracking.Over(x as real, n, ShadowTracking.RATE_SCALE).value >= DEFAULT_BAR.shadowMinAgreement
            <==> 200000 * x >= 189999 * n
  {
    ShadowTracking.RateReported(x, n, 95000);
    var a, m := x as real, n as real;
    assert a * 100000.0 >= 94999.5 * m <==> 200000.0 * a >= 189999.0 * m;
  }

  // What the default online bar asks of the readings a tracker compared: at least a
  // thousand, on which the verdicts agree in 94.9995 of a hundred (the rate is rounded
  // before it is compared to 95%), by the right model, without an error.
  lemma EvidenceMeans(
    shadow: string, champion: string, log: seq<ShadowTracking.Comparison>, errors: nat, version: string)
    ensures ShadowFailures(FromReport(ShadowTracking.ReportOn(shadow, champion, log, errors)), version, DEFAULT_BAR) == [] <==>
      && shadow == version
      && |log| >= 1000
      && 200000 * Total(ShadowTracking.Agrees(), log) >= 189999 * |log|
      && errors == 0
  {
    ShadowPass(FromReport(ShadowTracking.ReportOn(shadow, champion, log, errors)), version, DEFAULT_BAR);
    if log != [] {
      DefaultAgreement(Total(ShadowTracking.Agrees(), log), |log|);
    }
  }
}
