// Signed artifacts (ml/signing.py, ml/manifest.py): the verdict over a disk state, and
// the order in which a save changes the disk. The hash is ideal (equal digests mean
// equal bytes), and so are signatures (the only signature that verifies under a key
// for a message is the one made with that key for that message; RFC 8032,
// section 5.1).
module Signing {
  import opened Wrappers

  type Bytes = seq<bv8>
  type Key = nat

  datatype Digest = Sha256(of: Bytes)
  datatype KeyId = KeyId(of: Key)
  datatype Signature = Made(by': Key, message: string, digest: Digest) | Junk

  const DOMAIN := "edgesense-model-signature-v1\n"
  const ALGORITHM := "ed25519"

  // A field is None when it is missing; the signature is None when it is not base64. (A
  // missing signature decodes to no bytes at all, which is one more Junk.)
  datatype Envelope = Envelope(
    algorithm: Option<string>, sha256: Option<Digest>, keyId: Option<KeyId>, signature: Option<Signature>)

  datatype Sidecar = Object(envelope: Envelope) | NotObject | Unreadable

  datatype Disk = Disk(
    artifact: Option<Bytes>, sidecar: Option<Sidecar>,
    temp: Option<Bytes>, sidecarTemp: Option<Envelope>,
    manifest: Option<Bytes>, card: Option<Bytes>)

  const EMPTY := Disk(None, None, None, None, None, None)

  // ----- verification -------------------------------------------------------------

  datatype Reason =
    | RequiredButUnsigned | UnreadableSidecar | SidecarNotObject | UnknownAlgorithm | DigestMismatch
    | NoTrustStore | UntrustedKey | MalformedSignature | BadSignature

  datatype Verdict = Verified | Unsigned | Unverifiable | Refused(why: Reason) | ArtifactMissing

  type Trust = map<KeyId, Key>

  function Verify(d: Disk, trusted: Trust, require': bool): Verdict {
    if d.sidecar.None? then if require' then Refused(RequiredButUnsigned) else Unsigned
    else
      match d.sidecar.value
      case Unreadable => Refused(UnreadableSidecar)
      case NotObject => Refused(SidecarNotObject)
      case Object(e) =>
        if e.algorithm != Some(ALGORITHM) then Refused(UnknownAlgorithm)
        else if d.artifact.None? then ArtifactMissing
        else if e.sha256 != Some(Sha256(d.artifact.value)) then Refused(DigestMismatch)
        else if trusted == map[] then if require' then Refused(NoTrustStore) else Unverifiable
        else if e.keyId.None? || e.keyId.value !in trusted then Refused(UntrustedKey)
        else if e.signature.None? then Refused(MalformedSignature)
        else if e.signature.value != Made(trusted[e.keyId.value], DOMAIN, Sha256(d.artifact.value))
        then Refused(BadSignature)
        else Verified
  }

  datatype KeyMaterial = Parsed(key: Key) | NotEd25519 | Garbled

  // The trust store: no source gives an empty one; otherwise every public key block is
  // accepted, or the whole store is refused.
  method LoadTrustedKeys(source: Option<seq<KeyMaterial>>) returns (r: Option<Trust>)
    ensures source.None? ==> r == Some(map[])
    ensures source.Some? ==>
      (r.Some? <==> source.value != [] && forall i :: 0 <= i < |source.value| ==> source.value[i].Parsed?)
    ensures r.Some? ==> WellKeyed(r.value)
    ensures r.Some? && source.Some? ==> forall id :: id in r.value <==> Parsed(id.of) in source.value
  {
    if source.None? {
      return Some(map[]);
    }
    var blocks := source.value;
    if blocks == [] {
      return None;
    }
    var trusted: Trust := map[];
    for i := 0 to |blocks|
      invariant forall k :: 0 <= k < i ==> blocks[k].Parsed?
      invariant forall id :: id in trusted <==> Parsed(id.of) in blocks[..i]
      invariant WellKeyed(trusted)
    {
      if !blocks[i].Parsed? {
        return None;
      }
      assert blocks[..i + 1] == blocks[..i] + [blocks[i]];
      trusted := trusted[KeyId(blocks[i].key) := blocks[i].key];
    }
    assert blocks[..|blocks|] == blocks;
    return Some(trusted);
  }

  // Each key is filed under its own id.
  ghost predicate WellKeyed(trusted: Trust) {
    forall id :: id in trusted ==> trusted[id] == id.of
  }

  // ----- one save -------------------------------------------------------------------

  // `key` is None when no signing key is configured.
  datatype Save = Save(bytes: Bytes, key: Option<Key>, manifest: Option<Bytes>, card: Bytes)

  function Covering(bytes: Bytes, key: Key): Envelope {
    Envelope(Some(ALGORITHM), Some(Sha256(bytes)), Some(KeyId(key)), Some(Made(key, DOMAIN, Sha256(bytes))))
  }

  // The changes of the disk that another process can see, each of them atomic.
  datatype Op = DumpTemp | SignTemp | ReplaceSidecar | ReplaceArtifact | UnlinkSidecar | ReplaceManifest | ReplaceCard

  function Ops(s: Save): seq<Op> {
    (if s.key.Some? then [DumpTemp, SignTemp, ReplaceSidecar, ReplaceArtifact]
     else [DumpTemp, ReplaceArtifact, UnlinkSidecar])
    + (if s.manifest.Some? then [ReplaceManifest, ReplaceCard] else [])
  }

  function Apply(s: Save, d: Disk, op: Op): Disk {
    match op
    case DumpTemp => d.(temp := Some(s.bytes))
    case SignTemp =>
      if s.key.Some? && d.temp.Some? then d.(sidecarTemp := Some(Covering(d.temp.value, s.key.value))) else d
    case ReplaceSidecar =>
      if d.sidecarTemp.Some? then d.(sidecar := Some(Object(d.sidecarTemp.value)), sidecarTemp := None) else d
    case ReplaceArtifact => if d.temp.Some? then d.(artifact := d.temp, temp := None) else d
    case UnlinkSidecar => d.(sidecar := None)
    case ReplaceManifest => d.(manifest := s.manifest)
    case ReplaceCard => d.(card := Some(s.card))
  }

  // mkstemp never picks a name that is taken: the temp files a crashed save left behind
  // are unknown to the next one.
  function Forget(d: Disk): Disk {
    d.(temp := None, sidecarTemp := None)
  }

  // The disk after the first n operations of a save.
  function After(s: Save, d: Disk, n: nat): Disk
    requires n <= |Ops(s)|
  {
    if n == 0 then Forget(d) else Apply(s, After(s, d, n - 1), Ops(s)[n - 1])
  }

  // The directory of a bundle. Any operation may fail.
  class Folder {
    var disk: Disk
    ghost var seen: seq<Disk>   // after each operation that took effect

    constructor (d: Disk)
      ensures disk == d && seen == []
    {
      disk, seen := d, [];
    }

    // `done` operations of the save that found `start` took effect; `earlier` was seen
    // before it.
    ghost predicate Progress(s: Save, start: Disk, earlier: seq<Disk>, done: nat)
      reads this
    {
      && Logged(s, start, earlier, done)
      && disk == After(s, start, done)
    }

    ghost predicate Logged(s: Save, start: Disk, earlier: seq<Disk>, done: nat)
      reads this
    {
      && done <= |Ops(s)|
      && |seen| == |earlier| + done
      && seen[..|earlier|] == earlier
      && forall k :: |earlier| <= k < |seen| ==> seen[k] == After(s, start, k + 1 - |earlier|)
    }

    // The same, after the cleanup if the last operation raised.
    ghost predicate Stopped(s: Save, start: Disk, earlier: seq<Disk>, ok: bool, done: nat)
      reads this
    {
      && Logged(s, start, earlier, done)
      && disk == if ok then After(s, start, done) else Forget(After(s, start, done))
    }

    // The next operation, with the cleanup of a write that raised.
    method Do(s: Save, op: Op, ghost start: Disk, ghost earlier: seq<Disk>, ghost done: nat) returns (ok: bool)
      requires Progress(s, start, earlier, done)
      requires done < |Ops(s)| && op == Ops(s)[done]
      modifies this
      ensures Stopped(s, start, earlier, ok, if ok then done + 1 else done)
    {
      ok := *;
      if ok {
        disk := Apply(s, disk, op);
        seen := seen + [disk];
      } else {
        disk := Forget(disk);
      }
    }

    // save_bundle: `done` operations took effect. The signing hook runs between the
    // dump and the replacement of the artifact.
    method SaveBundle(s: Save) returns (ok: bool, done: nat)
      modifies this
      ensures done <= |Ops(s)| && (ok <==> done == |Ops(s)|)
      ensures ok ==> disk == After(s, old(disk), done)
      ensures !ok ==> disk == Forget(After(s, old(disk), done))
      ensures |seen| == |old(seen)| + done && seen[..|old(seen)|] == old(seen)
      ensures forall k :: |old(seen)| <= k < |seen| ==> seen[k] == After(s, old(disk), k + 1 - |old(seen)|)
    {
      ghost var start, earlier := disk, seen;
      disk := Forget(disk);
      if s.key.Some? {
        ok, done := SaveSigned(s, start, earlier);
      } else {
        ok, done := SaveUnsigned(s, start, earlier);
      }
      if !ok || s.manifest.None? { return; }
      ok := Do(s, ReplaceManifest, start, earlier, done);
      if !ok { return; }
      done := done + 1;
      ok := Do(s, ReplaceCard, start, earlier, done);
      if !ok { return; }
      done := done + 1;
    }

    method SaveSigned(s: Save, ghost start: Disk, ghost earlier: seq<Disk>) returns (ok: bool, done: nat)
      requires s.key.Some? && Progress(s, start, earlier, 0)
      modifies this
      ensures done <= 4 && (ok <==> done == 4)
      ensures Stopped(s, start, earlier, ok, done)
    {
      done := 0;
      ok := Do(s, DumpTemp, start, earlier, 0);
      if !ok { return; }
      done := 1;
      ok := Do(s, SignTemp, start, earlier, 1);
      if !ok { return; }
      done := 2;
      ok := Do(s, ReplaceSidecar, start, earlier, 2);
      if !ok { return; }
      done := 3;
      ok := Do(s, ReplaceArtifact, start, earlier, 3);
      if !ok { return; }
      done := 4;
    }

    method SaveUnsigned(s: Save, ghost start: Disk, ghost earlier: seq<Disk>) returns (ok: bool, done: nat)
      requires s.key.None? && Progress(s, start, earlier, 0)
      modifies this
      ensures done <= 3 && (ok <==> done == 3)
      ensures Stopped(s, start, earlier, ok, done)
    {
      done := 0;
      ok := Do(s, DumpTemp, start, earlier, 0);
      if !ok { return; }
      done := 1;
      ok := Do(s, ReplaceArtifact, start, earlier, 1);
      if !ok { return; }
      done := 2;
      ok := Do(s, UnlinkSidecar, start, earlier, 2);
      if !ok { return; }
      done := 3;
    }
  }
}
