// A sidecar that loads a bundle while it is being saved (inference/server.py, _load_state;
// ml/signing.py, verify_artifact): it looks for the signature, reads it, hashes the
// artifact and loads the artifact, each time from the disk as it is at that moment.
module SigningReader {
  import opened Wrappers
  import opened Signing
  import opened SigningProofs

  datatype Reader =
    | Idle
    | Looked                                                   // there is a signature file
    | Read(sidecar: Sidecar)
    | Judged(verdict: Verdict, hashed: Option<Bytes>)          // hashed: None if there was no hash to take
    | Loaded(verdict: Verdict, hashed: Option<Bytes>, bytes: Option<Bytes>)

  // `saves` are all saves begun so far; `done` operations of the running one took effect.
  datatype World = World(disk: Disk, saving: Option<Save>, done: nat, saves: seq<Save>, reader: Reader)

  datatype Step = Begin(s: Save) | Effect | End | Look | ReadSignature | Hash | Load

  datatype Node = Node(trusted: Trust, require': bool)

  // The verdict on a signature and an artifact read at different times.
  function Judge(node: Node, sidecar: Option<Sidecar>, artifact: Option<Bytes>): Verdict {
    Verify(EMPTY.(sidecar := sidecar, artifact := artifact), node.trusted, node.require')
  }

  function SaveStep(w: World, step: Step): Option<World> {
    match step
    case Begin(s) =>
      if w.saving.None? then Some(w.(disk := Forget(w.disk), saving := Some(s), done := 0, saves := w.saves + [s])) else None
    case Effect =>
      if w.saving.Some? && w.done < |Ops(w.saving.value)|
      then Some(w.(disk := Apply(w.saving.value, w.disk, Ops(w.saving.value)[w.done]), done := w.done + 1)) else None
    case End => if w.saving.Some? then Some(w.(disk := Forget(w.disk), saving := None)) else None
    case _ => None
  }

  function ReadStep(node: Node, w: World, step: Step): Option<World> {
    match step
    case Look =>
      if !w.reader.Idle? then None
      else if w.disk.sidecar.Some? then Some(w.(reader := Looked))
      else Some(w.(reader := Judged(Judge(node, None, None), None)))
    case ReadSignature =>
      if !w.reader.Looked? then None
      else if w.disk.sidecar.Some? then Some(w.(reader := Read(w.disk.sidecar.value)))
      else Some(w.(reader := Judged(Refused(UnreadableSidecar), None)))   // gone in the meantime
    case Hash =>
      if w.reader.Read?
      then Some(w.(reader := Judged(Judge(node, Some(w.reader.sidecar), w.disk.artifact), w.disk.artifact))) else None
    case Load =>
      if w.reader.Judged? && Accepted(w.reader.verdict)
      then Some(w.(reader := Loaded(w.reader.verdict, w.reader.hashed, w.disk.artifact))) else None
    case _ => None
  }

  predicate Saves(step: Step) {
    step.Begin? || step.Effect? || step.End?
  }

  function Next(node: Node, w: World, step: Step): Option<World> {
    if Saves(step) then SaveStep(w, step) else ReadStep(node, w, step)
  }

  function Exec(node: Node, w: World, run: seq<Step>): Option<World>
    decreases |run|
  {
    if run == [] then Some(w)
    else
      var t := Next(node, w, run[0]);
      if t.None? then None else Exec(node, t.value, run[1..])
  }

  const START := World(EMPTY, None, 0, [], Idle)

  // ----- what is signed stays signed ------------------------------------------------------

  predicate SignedSave(s: Save, sidecar: Sidecar) {
    s.key.Some? && sidecar == Object(Covering(s.bytes, s.key.value))
  }

  // The signature is one that some save made for its own bytes.
  ghost predicate MadeBySave(sidecar: Sidecar, saves: seq<Save>) {
    exists i :: 0 <= i < |saves| && SignedSave(saves[i], sidecar)
  }

  predicate Trusts(node: Node, s: Save, bytes: Option<Bytes>) {
    s.key.Some? && KeyId(s.key.value) in node.trusted && bytes == Some(s.bytes)
  }

  ghost predicate Vouched(node: Node, bytes: Option<Bytes>, saves: seq<Save>) {
    exists i :: 0 <= i < |saves| && Trusts(node, saves[i], bytes)
  }

  // A verdict for which there has to be a signature.
  predicate Firm(node: Node, v: Verdict) {
    v.Verified? || (node.require' && Accepted(v))
  }

  // What the running save has in its temporary files.
  ghost predicate InTemps(w: World) {
    w.saving.Some? ==>
      var s := w.saving.value;
      && w.done <= |Ops(s)| && s in w.saves
      && (1 <= w.done < MovedAt(s) ==> w.disk.temp == Some(s.bytes))
      && (s.key.Some? && w.done == 2 ==> w.disk.sidecarTemp == Some(Covering(s.bytes, s.key.value)))
  }

  ghost predicate Inv(node: Node, w: World) {
    && InTemps(w)
    && (w.disk.sidecar.Some? ==> MadeBySave(w.disk.sidecar.value, w.saves))
    && (w.reader.Read? ==> MadeBySave(w.reader.sidecar, w.saves))
    && (w.reader.Judged? && Firm(node, w.reader.verdict) ==> Vouched(node, w.reader.hashed, w.saves))
    && (w.reader.Loaded? && Firm(node, w.reader.verdict) ==> Vouched(node, w.reader.hashed, w.saves))
  }

  lemma MoreSaves(node: Node, sidecar: Sidecar, bytes: Option<Bytes>, saves: seq<Save>, s: Save)
    ensures MadeBySave(sidecar, saves) ==> MadeBySave(sidecar, saves + [s])
    ensures Vouched(node, bytes, saves) ==> Vouched(node, bytes, saves + [s])
  {
    if i :| 0 <= i < |saves| && SignedSave(saves[i], sidecar) {
      assert SignedSave((saves + [s])[i], sidecar);
    }
    if i :| 0 <= i < |saves| && Trusts(node, saves[i], bytes) {
      assert Trusts(node, (saves + [s])[i], bytes);
    }
  }

  lemma BeginKeeps(node: Node, w: World, s: Save)
    requires Inv(node, w) && SaveStep(w, Begin(s)).Some?
    ensures Inv(node, SaveStep(w, Begin(s)).value)
  {
    if w.disk.sidecar.Some? {
      MoreSaves(node, w.disk.sidecar.value, None, w.saves, s);
    }
    match w.reader
    case Read(sidecar) => MoreSaves(node, sidecar, None, w.saves, s);
    case Judged(_, hashed) => MoreSaves(node, Unreadable, hashed, w.saves, s);
    case Loaded(_, hashed, _) => MoreSaves(node, Unreadable, hashed, w.saves, s);
    case _ =>
  }

  // The operation that takes effect next, and what it finds.
  lemma EffectTemps(w: World)
    requires InTemps(w) && SaveStep(w, Effect).Some?
    ensures InTemps(SaveStep(w, Effect).value)
  {
  }

  lemma EffectSidecar(w: World)
    requires InTemps(w) && SaveStep(w, Effect).Some?
    ensures var t := SaveStep(w, Effect).value;
      || t.disk.sidecar == w.disk.sidecar
      || t.disk.sidecar == None
      || (t.disk.sidecar.Some? && SignedSave(w.saving.value, t.disk.sidecar.value))
  {
  }

  lemma EffectKeeps(node: Node, w: World)
    requires Inv(node, w) && SaveStep(w, Effect).Some?
    ensures Inv(node, SaveStep(w, Effect).value)
  {
    EffectTemps(w);
    EffectSidecar(w);
    var t := SaveStep(w, Effect).value;
    if t.disk.sidecar.Some? && t.disk.sidecar != w.disk.sidecar {
      var i :| 0 <= i < |w.saves| && w.saves[i] == w.saving.value;
      assert SignedSave(w.saves[i], t.disk.sidecar.value);
    }
  }

  // A signature that some save made, found to verify, is over that save's bytes.
  lemma JudgedVerified(node: Node, sidecar: Sidecar, artifact: Option<Bytes>, saves: seq<Save>)
    requires WellKeyed(node.trusted) && MadeBySave(sidecar, saves)
    requires Firm(node, Judge(node, Some(sidecar), artifact))
    ensures Vouched(node, artifact, saves)
  {
    var i :| 0 <= i < |saves| && SignedSave(saves[i], sidecar);
    assert Sha256(artifact.value).of == Sha256(saves[i].bytes).of;
    assert Trusts(node, saves[i], artifact);
  }

  lemma ReadKeeps(node: Node, w: World, step: Step)
    requires WellKeyed(node.trusted) && Inv(node, w) && ReadStep(node, w, step).Some?
    ensures Inv(node, ReadStep(node, w, step).value)
  {
    if step.Hash? && Firm(node, Judge(node, Some(w.reader.sidecar), w.disk.artifact)) {
      JudgedVerified(node, w.reader.sidecar, w.disk.artifact, w.saves);
    }
  }

  lemma {:induction false} RunKeeps(node: Node, w: World, run: seq<Step>)
    requires WellKeyed(node.trusted) && Inv(node, w) && Exec(node, w, run).Some?
    ensures Inv(node, Exec(node, w, run).value)
    decreases |run|
  {
    if run != [] {
      match run[0] {
        case Begin(s) => BeginKeeps(node, w, s);
        case Effect => EffectKeeps(node, w);
        case End =>
        case _ => ReadKeeps(node, w, run[0]);
      }
      RunKeeps(node, Next(node, w, run[0]).value, run[1..]);
    }
  }

  // However the reads and any number of saves interleave: the bytes that were hashed for
  // the verdict "verified", or for any verdict that a node which requires signatures
  // accepts, are those of a save signed with a key this node trusts.
  lemma HashedWasSigned(node: Node, run: seq<Step>)
    requires WellKeyed(node.trusted) && Exec(node, START, run).Some?
    requires var r := Exec(node, START, run).value.reader;
      (r.Judged? || r.Loaded?) && (r.verdict == Verified || (node.require' && Accepted(r.verdict)))
    ensures var w := Exec(node, START, run).value; Vouched(node, w.reader.hashed, w.saves)
  {
    RunKeeps(node, START, run);
  }

  // ----- what is loaded need not be what was hashed -------------------------------------------

  // The bytes that the last replacement of the artifact in a run of saves put in place.
  function LastPlaced(w: World, run: seq<Step>): Option<Bytes>
    decreases |run|
  {
    if run == [] then None
    else
      var t := SaveStep(w, run[0]);
      if t.None? then None
      else
        var later := LastPlaced(t.value, run[1..]);
        if later.Some? then later
        else if run[0].Effect? && Ops(w.saving.value)[w.done].ReplaceArtifact? then Some(w.saving.value.bytes)
        else None
  }

  lemma EffectArtifact(w: World)
    requires InTemps(w) && SaveStep(w, Effect).Some?
    ensures SaveStep(w, Effect).value.disk.artifact
            == if Ops(w.saving.value)[w.done].ReplaceArtifact? then Some(w.saving.value.bytes) else w.disk.artifact
  {
  }

  lemma {:induction false} ArtifactAfter(node: Node, w: World, run: seq<Step>)
    requires InTemps(w) && Exec(node, w, run).Some? && forall i :: 0 <= i < |run| ==> Saves(run[i])
    ensures var t := Exec(node, w, run).value;
            t.reader == w.reader
            && t.disk.artifact == if LastPlaced(w, run).Some? then LastPlaced(w, run) else w.disk.artifact
    decreases |run|
  {
    if run != [] {
      assert Saves(run[0]);
      var t := SaveStep(w, run[0]).value;
      if run[0].Effect? {
        EffectTemps(w);
        EffectArtifact(w);
      }
      ArtifactAfter(node, t, run[1..]);
    }
  }

  // Hash, any saves in between, load: the node loads the bytes it verified if and only
  // if the last replacement in between, if there was one, put those same bytes in place.
  lemma LoadsWhatItHashedIff(
    node: Node, before: seq<Step>, w: World, h: World, between: seq<Step>, m: World, l: World)
    requires WellKeyed(node.trusted) && Exec(node, START, before) == Some(w)
    requires Next(node, w, Hash) == Some(h)
    requires Exec(node, h, between) == Some(m) && forall i :: 0 <= i < |between| ==> Saves(between[i])
    requires Next(node, m, Load) == Some(l)
    ensures l.reader.Loaded? && l.reader.hashed == h.disk.artifact
    ensures l.reader.bytes == l.reader.hashed
            <==> LastPlaced(h, between).None? || LastPlaced(h, between) == h.disk.artifact
  {
    RunKeeps(node, START, before);
    ArtifactAfter(node, h, between);
  }

  // ----- a node that requires signatures loads unsigned bytes ------------------------------------

  lemma {:induction false} ExecAppend(node: Node, w: World, run: seq<Step>, more: seq<Step>)
    requires Exec(node, w, run).Some?
    ensures Exec(node, w, run + more) == Exec(node, Exec(node, w, run).value, more)
    decreases |run|
  {
    if run == [] {
      assert run + more == more;
    } else {
      assert (run + more)[1..] == run[1..] + more;
      ExecAppend(node, Next(node, w, run[0]).value, run[1..], more);
    }
  }

  lemma Then(node: Node, w: World, run: seq<Step>, t: World, step: Step, u: World) returns (more: seq<Step>)
    requires Exec(node, w, run) == Some(t) && Next(node, t, step) == Some(u)
    ensures Exec(node, w, more) == Some(u)
  {
    ExecAppend(node, w, run, [step]);
    assert [step][1..] == [];
    assert Exec(node, u, []) == Some(u);
    more := run + [step];
  }

  // A signed save of which everything but the manifest took effect.
  function SavedSigned(s: Save): World
    requires s.key.Some?
  {
    World(EMPTY.(artifact := Some(s.bytes), sidecar := Some(Object(Covering(s.bytes, s.key.value)))), Some(s), 4, [s], Idle)
  }

  lemma SavesSigned(node: Node, s: Save) returns (run: seq<Step>)
    requires s.key.Some?
    ensures Exec(node, START, run) == Some(SavedSigned(s))
  {
    var envelope := Covering(s.bytes, s.key.value);
    var a := World(EMPTY, Some(s), 0, [s], Idle);
    var b := a.(disk := EMPTY.(temp := Some(s.bytes)), done := 1);
    var c := b.(disk := b.disk.(sidecarTemp := Some(envelope)), done := 2);
    var d := c.(disk := c.disk.(sidecar := Some(Object(envelope)), sidecarTemp := None), done := 3);
    assert [] + [s] == [s];
    run := Then(node, START, [], START, Begin(s), a);
    run := Then(node, START, run, a, Effect, b);
    run := Then(node, START, run, b, Effect, c);
    run := Then(node, START, run, c, Effect, d);
    run := Then(node, START, run, d, Effect, SavedSigned(s));
  }

  // The node verifies the signed artifact.
  lemma Verifies(node: Node, s: Save, run: seq<Step>) returns (more: seq<Step>)
    requires WellKeyed(node.trusted) && s.key.Some? && KeyId(s.key.value) in node.trusted
    requires Exec(node, START, run) == Some(SavedSigned(s))
    ensures Exec(node, START, more) == Some(SavedSigned(s).(reader := Judged(Verified, Some(s.bytes))))
  {
    var w := SavedSigned(s);
    more := Then(node, START, run, w, Look, w.(reader := Looked));
    more := Then(node, START, more, w.(reader := Looked), ReadSignature, w.(reader := Read(w.disk.sidecar.value)));
    assert Judge(node, w.disk.sidecar, w.disk.artifact) == Verified;
    more := Then(node, START, more, w.(reader := Read(w.disk.sidecar.value)), Hash,
                 w.(reader := Judged(Verified, Some(s.bytes))));
  }

  // Whatever a node trusts and requires, an unsigned save between its two reads of the
  // artifact makes it load bytes that nobody signed, under the verdict "verified".
  lemma LoadsUnsigned(node: Node, s: Save, u: Save) returns (run: seq<Step>)
    requires WellKeyed(node.trusted) && s.key.Some? && KeyId(s.key.value) in node.trusted
    requires u.key.None?
    ensures Exec(node, START, run).Some?
    ensures Exec(node, START, run).value.reader == Loaded(Verified, Some(s.bytes), Some(u.bytes))
  {
    run := SavesSigned(node, s);
    run := Verifies(node, s, run);
    var a := SavedSigned(s).(reader := Judged(Verified, Some(s.bytes)));
    var b := a.(saving := None);
    var c := b.(saving := Some(u), done := 0, saves := [s, u]);
    var d := c.(disk := c.disk.(temp := Some(u.bytes)), done := 1);
    var e := c.(disk := c.disk.(artifact := Some(u.bytes)), done := 2);
    assert [s] + [u] == [s, u];
    run := Then(node, START, run, a, End, b);
    run := Then(node, START, run, b, Begin(u), c);
    run := Then(node, START, run, c, Effect, d);
    run := Then(node, START, run, d, Effect, e);
    run := Then(node, START, run, e, Load, e.(reader := Loaded(Verified, Some(s.bytes), Some(u.bytes))));
  }
}
