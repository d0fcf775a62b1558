// The promotion gate (ml/promote.py): a challenger replaces the champion only when
// nothing speaks against it.
module Gate {
  import opened Wrappers
  import Evaluation

  datatype QualityBar = QualityBar(
    episodeRate: real, maxMedianLatency: int, maxFpRate: real, onnxRelMae: real, onnxAgreement: real,
    shadowMinN: int, shadowMinAgreement: real)

  const DEFAULT_BAR := QualityBar(1.0, 1, 0.006, 0.001, 0.99, 1000, 0.95)
  const FP_TOLERANCE := 0.001
  const LATENCY_TOLERANCE := 1

  // ----- summaries --------------------------------------------------------------------------

  datatype FaultSummary = FaultSummary(detected: int, episodes: int, episodeRate: real, median: Option<nat>, recall: real)

  datatype Summary = Summary(total: int, detected: int, fpRate: real, perFault: seq<(string, FaultSummary)>)

  function SumOf(f: ((string, Evaluation.FaultResult)) -> int, faults: seq<(string, Evaluation.FaultResult)>): int {
    if faults == [] then 0 else f(faults[0]) + SumOf(f, faults[1..])
  }

  function Summarize(r: Evaluation.Results): Summary {
    Summary(
      SumOf((x: (string, Evaluation.FaultResult)) => x.1.episodes, r.faults),
      SumOf((x: (string, Evaluation.FaultResult)) => x.1.detected, r.faults),
      r.fpRate,
      seq(|r.faults|, i requires 0 <= i < |r.faults| =>
        var x := r.faults[i];
        (x.0, FaultSummary(x.1.detected, x.1.episodes, x.1.episodeRate, x.1.median, x.1.recall))))
  }

  // ----- the three checks -------------------------------------------------------------------

  datatype Failure =
    | EpisodesMissed(fault: string) | SlowToDetect(fault: string) | FalseAlarms
    | OnnxParity
    | FewerEpisodes | MoreFalseAlarms | SlowerThanChampion(fault: string)
    | OtherModelShadowed | ThinEvidence | LowAgreement | ShadowErrors

  function When(b: bool, f: Failure): seq<Failure> {
    if b then [f] else []
  }

  // Appending one failure at a time, or both at once.
  lemma AppendTwo(before: seq<Failure>, b: bool, f: Failure, c: bool, g: Failure)
    ensures before + (When(b, f) + When(c, g)) ==
      var one := if b then before + [f] else before; if c then one + [g] else one
  {
  }

  function FaultFailures(bar: QualityBar, fault: string, r: FaultSummary): seq<Failure> {
    When(r.episodeRate < bar.episodeRate, EpisodesMissed(fault))
    + When(r.median.None? || r.median.value > bar.maxMedianLatency, SlowToDetect(fault))
  }

  function AllFaultFailures(bar: QualityBar, faults: seq<(string, FaultSummary)>): seq<Failure> {
    if faults == [] then []
    else
      var last := faults[|faults| - 1];
      AllFaultFailures(bar, faults[..|faults| - 1]) + FaultFailures(bar, last.0, last.1)
  }

  function BarFailures(s: Summary, bar: QualityBar): seq<Failure> {
    AllFaultFailures(bar, s.perFault) + When(s.fpRate > bar.maxFpRate, FalseAlarms)
  }

  method CheckBar(s: Summary, bar: QualityBar) returns (failures: seq<Failure>)
    ensures failures == BarFailures(s, bar)
  {
    failures := [];
    for i := 0 to |s.perFault|
      invariant failures == AllFaultFailures(bar, s.perFault[..i])
    {
      var (fault, r) := s.perFault[i];
      AppendTwo(failures, r.episodeRate < bar.episodeRate, EpisodesMissed(fault),
                r.median.None? || r.median.value > bar.maxMedianLatency, SlowToDetect(fault));
      if r.episodeRate < bar.episodeRate {
        failures := failures + [EpisodesMissed(fault)];
      }
      if r.median.None? || r.median.value > bar.maxMedianLatency {
        failures := failures + [SlowToDetect(fault)];
      }
      assert s.perFault[..i + 1][..i] == s.perFault[..i];
    }
    assert s.perFault[..|s.perFault|] == s.perFault;
    if s.fpRate > bar.maxFpRate {
      failures := failures + [FalseAlarms];
    }
  }

  // What a report says; None where it says nothing.
  datatype Evidence = Evidence(shadowVersion: Option<string>, n: Option<int>, rate: Option<real>, errors: Option<int>)

  function Amount(x: Option<int>): int {
    if x.None? then 0 else x.value
  }

  // A report about another model says nothing else about this one.
  method CheckShadow(e: Evidence, version: string, bar: QualityBar) returns (failures: seq<Failure>)
    ensures failures == ShadowFailures(e, version, bar)
  {
    failures := [];
    if e.shadowVersion != Some(version) {
      failures := failures + [OtherModelShadowed];
      return;
    }
    if Amount(e.n) < bar.shadowMinN {
      failures := failures + [ThinEvidence];
    }
    if e.rate.None? || e.rate.value < bar.shadowMinAgreement {
      failures := failures + [LowAgreement];
    }
    if Amount(e.errors) != 0 {
      failures := failures + [ShadowErrors];
    }
  }

  function ShadowFailures(e: Evidence, version: string, bar: QualityBar): seq<Failure> {
    if e.shadowVersion != Some(version) then [OtherModelShadowed]
    else
      When(Amount(e.n) < bar.shadowMinN, ThinEvidence)
      + When(e.rate.None? || e.rate.value < bar.shadowMinAgreement, LowAgreement)
      + When(Amount(e.errors) != 0, ShadowErrors)
  }

  function Lookup(faults: seq<(string, FaultSummary)>, fault: string): Option<FaultSummary> {
    if faults == [] then None
    else if faults[0].0 == fault then Some(faults[0].1)
    else Lookup(faults[1..], fault)
  }

  // A fault the champion was never measured on, or never detected, is not compared.
  function Slower(champion: Summary, fault: string, r: FaultSummary): bool {
    var cp := Lookup(champion.perFault, fault);
    && cp.Some? && cp.value.median.Some?
    && (r.median.None? || r.median.value > cp.value.median.value + LATENCY_TOLERANCE)
  }

  function AllSlower(champion: Summary, faults: seq<(string, FaultSummary)>): seq<Failure> {
    if faults == [] then []
    else
      var last := faults[|faults| - 1];
      AllSlower(champion, faults[..|faults| - 1]) + When(Slower(champion, last.0, last.1), SlowerThanChampion(last.0))
  }

  function Regressions(challenger: Summary, champion: Summary): seq<Failure> {
    When(challenger.detected < champion.detected, FewerEpisodes)
    + When(challenger.fpRate > champion.fpRate + FP_TOLERANCE, MoreFalseAlarms)
    + AllSlower(champion, challenger.perFault)
  }

  method CompareToChampion(challenger: Summary, champion: Summary) returns (failures: seq<Failure>)
    ensures failures == Regressions(challenger, champion)
  {
    failures := [];
    if challenger.detected < champion.detected {
      failures := failures + [FewerEpisodes];
    }
    if challenger.fpRate > champion.fpRate + FP_TOLERANCE {
      failures := failures + [MoreFalseAlarms];
    }
    var slower := CompareLatencies(challenger.perFault, champion);
    failures := failures + slower;
  }

  // The loop over the challenger's faults.
  method CompareLatencies(faults: seq<(string, FaultSummary)>, champion: Summary) returns (failures: seq<Failure>)
    ensures failures == AllSlower(champion, faults)
  {
    failures := [];
    for i := 0 to |faults|
      invariant failures == AllSlower(champion, faults[..i])
    {
      var (fault, ch) := faults[i];
      assert faults[..i + 1][..i] == faults[..i];
      var cp := Lookup(champion.perFault, fault);
      if cp.None? || cp.value.median.None? {
        continue;
      }
      if ch.median.None? || ch.median.value > cp.value.median.value + LATENCY_TOLERANCE {
        failures := failures + [SlowerThanChampion(fault)];
      }
    }
    assert faults[..|faults|] == faults;
  }

  // ----- the gate ---------------------------------------------------------------------------

  // `measured` is what the gate wrote into the manifest; the evaluation depends on the
  // weights alone.
  datatype Bundle = Bundle(version: string, weights: nat, measured: Option<Summary>)

  datatype ShadowSource = NotGiven | Unreadable | Given(evidence: Evidence)

  // One run: the challenger (None when training or loading it failed), its parity
  // (None when the check raised) and the shadow report.
  datatype Run = Run(challenger: Option<Bundle>, parity: Option<(real, real)>, shadow: ShadowSource)

  datatype Outcome = Promoted | Refused(failures: seq<Failure>) | Failed

  // A directory entry: the directory that a path's parent leads to, and the last
  // component. Different texts may lead to the same directory: relative and absolute
  // paths, links on the way.
  type Directory = nat

  datatype Entry = Entry(dir: Directory, name: string)

  datatype Content = Model(bundle: Bundle) | Signature(of: Bundle) | Manifest(of: Bundle) | Card(of: Bundle)
                   | Report(version: string, failures: seq<Failure>)

  type Files = map<Entry, Content>

  const MODEL_NAME := "model.joblib"
  const CARD_NAME := "MODEL_CARD.md"
  const REPORT_NAME := "report.md"

  // What is before the last dot of a name, unless that is its first or last character.
  function Stem(name: string): string {
    if |name| < 2 || name[|name| - 1] == '.' then name
    else
      var i := LastDot(name);
      if i == 0 then name else name[..i]
  }

  // The position of the last dot; 0 if there is none.
  function LastDot(name: string): (i: nat)
    ensures i == 0 || (i < |name| && name[i] == '.')
    ensures forall k :: i < k < |name| ==> name[k] != '.'
  {
    if name == "" then 0
    else if name[|name| - 1] == '.' then |name| - 1
    else LastDot(name[..|name| - 1])
  }

  function SignatureName(name: string): string {
    name + ".sig"
  }

  function ManifestName(name: string): string {
    Stem(name) + ".manifest.json"
  }

  // save_bundle: the model, its signature or the removal of an old one, the manifest
  // and the model card.
  function Saved(files: Files, dir: Directory, name: string, b: Bundle, signs: bool): Files {
    var sig := Entry(dir, SignatureName(name));
    var placed := files[Entry(dir, name) := Model(b)];
    (if signs then placed[sig := Signature(b)] else placed - {sig})
    [Entry(dir, ManifestName(name)) := Manifest(b)][Entry(dir, CARD_NAME) := Card(b)]
  }

  // The settings that stay the same from run to run. `assess` is the evaluation with
  // its seed, None when it raises; `signs` says whether a signing key is configured;
  // `resolve` is where the path of a directory leads.
  datatype Settings = Settings(
    assess: nat -> Option<Summary>, bar: QualityBar, signs: bool,
    resolve: string -> Directory, championDir: string, championName: string, outDir: string)
  {
    function ChampionEntry(): Entry {
      Entry(resolve(championDir), championName)
    }

    function OutEntry(name: string): Entry {
      Entry(resolve(outDir), name)
    }
  }

  function ParityFails(parity: (real, real), bar: QualityBar): bool {
    parity.0 >= bar.onnxRelMae || parity.1 <= bar.onnxAgreement
  }

  // What speaks against a challenger with these measurements.
  function Against(
    g: Settings, challenger: Summary, champion: Option<Summary>, parity: (real, real),
    evidence: Option<Evidence>, version: string): seq<Failure>
  {
    BarFailures(challenger, g.bar)
    + When(ParityFails(parity, g.bar), OnnxParity)
    + (if champion.Some? then Regressions(challenger, champion.value) else [])
    + (if evidence.Some? then ShadowFailures(evidence.value, version, g.bar) else [])
  }

  method FindAgainst(
    g: Settings, challenger: Summary, champion: Option<Summary>, parity: (real, real),
    evidence: Option<Evidence>, version: string) returns (failures: seq<Failure>)
    ensures failures == Against(g, challenger, champion, parity, evidence, version)
  {
    failures := CheckBar(challenger, g.bar);
    if ParityFails(parity, g.bar) {
      failures := failures + [OnnxParity];
    }
    var worse, doubts := [], [];
    if champion.Some? {
      worse := CompareToChampion(challenger, champion.value);
    }
    if evidence.Some? {
      doubts := CheckShadow(evidence.value, version, g.bar);
    }
    failures := failures + worse + doubts;
  }

  // Measurements of the champion; None when there is none, or what is in its place cannot
  // be loaded or evaluated.
  function ChampionSummary(g: Settings, files: Files): Option<Summary> {
    var e := g.ChampionEntry();
    if e in files && files[e].Model? then g.assess(files[e].bundle.weights) else None
  }

  // None when an exception ends the run before there is a decision.
  function Objections(g: Settings, files: Files, run: Run): Option<seq<Failure>> {
    if run.challenger.None? then None
    else
      var challenger := g.assess(run.challenger.value.weights);
      var champion := ChampionSummary(g, files);
      if challenger.None? || (g.ChampionEntry() in files && champion.None?) || run.parity.None? || run.shadow.Unreadable?
      then None
      else
        Some(Against(g, challenger.value, champion, run.parity.value,
                     if run.shadow.Given? then Some(run.shadow.evidence) else None, run.challenger.value.version))
  }

  function Decide(g: Settings, files: Files, run: Run): Outcome {
    var objections := Objections(g, files, run);
    if objections.None? then Failed else if objections.value == [] then Promoted else Refused(objections.value)
  }

  // The challenger with its measurements, as it is saved.
  function Measured(g: Settings, challenger: Bundle): Bundle {
    challenger.(measured := g.assess(challenger.weights))
  }

  // The candidate and the report are archived whatever the decision.
  function Archived(g: Settings, files: Files, saved: Bundle, failures: seq<Failure>): Files {
    Saved(files, g.resolve(g.outDir), MODEL_NAME, saved, g.signs)
    [g.OutEntry(REPORT_NAME) := Report(saved.version, failures)]
  }

  // The files after a run.
  function FilesAfter(g: Settings, files: Files, run: Run): Files {
    match Decide(g, files, run)
    case Failed => files
    case Refused(failures) => Archived(g, files, Measured(g, run.challenger.value), failures)
    case Promoted =>
      var saved := Measured(g, run.challenger.value);
      Saved(Archived(g, files, saved, []), g.resolve(g.championDir), g.championName, saved, g.signs)
  }

  // The model directory.
  class Registry {
    var files: Files

    constructor ()
      ensures files == map[]
    {
      files := map[];
    }

    method RunGate(g: Settings, run: Run) returns (outcome: Outcome)
      modifies this
      ensures outcome == Decide(g, old(files), run)
      ensures files == FilesAfter(g, old(files), run)
    {
      if run.challenger.None? {
        return Failed;
      }
      var bundle := run.challenger.value;
      var challenger := g.assess(bundle.weights);
      if challenger.None? {
        return Failed;
      }
      var champion := None;
      var e := g.ChampionEntry();
      if e in files {
        if !files[e].Model? {
          return Failed;
        }
        champion := g.assess(files[e].bundle.weights);
        if champion.None? {
          return Failed;
        }
      }
      if run.parity.None? || run.shadow.Unreadable? {
        return Failed;
      }
      var failures := FindAgainst(
        g, challenger.value, champion, run.parity.value,
        if run.shadow.Given? then Some(run.shadow.evidence) else None, bundle.version);
      bundle := bundle.(measured := challenger);
      Save(g.resolve(g.outDir), MODEL_NAME, bundle, g.signs);
      files := files[g.OutEntry(REPORT_NAME) := Report(bundle.version, failures)];
      if failures == [] {
        Save(g.resolve(g.championDir), g.championName, bundle, g.signs);
        outcome := Promoted;
      } else {
        outcome := Refused(failures);
      }
    }

    method Save(dir: Directory, name: string, b: Bundle, signs: bool)
      modifies this
      ensures files == Saved(old(files), dir, name, b, signs)
    {
      var sig := Entry(dir, SignatureName(name));
      files := files[Entry(dir, name) := Model(b)];
      if signs {
        files := files[sig := Signature(b)];
      } else {
        files := files - {sig};
      }
      files := files[Entry(dir, ManifestName(name)) := Manifest(b)][Entry(dir, CARD_NAME) := Card(b)];
    }
  }
}
