// What verification says of the disk after any sequence of saves, signed and unsigned,
// each of them complete or cut short at any operation.
module SigningProofs {
  import opened Wrappers
  import opened Signing

  // `done` operations of the save took effect before it ended, failed or crashed.
  datatype Attempt = Attempt(save: Save, done: nat)

  ghost predicate Possible(run: seq<Attempt>) {
    forall i :: 0 <= i < |run| ==> run[i].done <= |Ops(run[i].save)|
  }

  // The disk a run leaves. Every state that can be observed is of this form: cut the
  // run, and the last save in it, at the moment of the observation.
  ghost function DiskAfter(run: seq<Attempt>): Disk
    requires Possible(run)
  {
    if run == [] then EMPTY
    else After(run[|run| - 1].save, DiskAfter(run[..|run| - 1]), run[|run| - 1].done)
  }

  // ----- the stages of one save -------------------------------------------------------

  ghost function MovedAt(s: Save): nat { if s.key.Some? then 4 else 2 }

  // What readers can see: a signed save changes the sidecar at its third operation
  // and the artifact at its fourth; an unsigned one changes the artifact at its second
  // and removes the sidecar at its third. A complete one leaves no temporary file, whatever
  // an earlier one left.
  lemma {:induction false} Stages(s: Save, d: Disk, n: nat)
    requires n <= |Ops(s)|
    ensures After(s, d, n).artifact == if n < MovedAt(s) then d.artifact else Some(s.bytes)
    ensures After(s, d, n).sidecar ==
      if n < 3 then d.sidecar else if s.key.Some? then Some(Object(Covering(s.bytes, s.key.value))) else None
    ensures After(s, d, n).temp == if 1 <= n < MovedAt(s) then Some(s.bytes) else None
    ensures After(s, d, n).sidecarTemp ==
      if n == 2 && s.key.Some? then Some(Covering(s.bytes, s.key.value)) else None
  {
    if n > 0 {
      Stages(s, d, n - 1);
    }
  }

  // The manifest, if the bundle has one, comes after the artifact is in place, and the
  // model card after the manifest.
  lemma {:induction false} LaterStages(s: Save, d: Disk, n: nat)
    requires n <= |Ops(s)|
    ensures var last := if s.key.Some? then 4 else 3;
            && |Ops(s)| == (if s.manifest.Some? then last + 2 else last)
            && After(s, d, n).manifest == (if n <= last then d.manifest else s.manifest)
            && After(s, d, n).card == (if n <= last + 1 then d.card else Some(s.card))
  {
    if n > 0 {
      LaterStages(s, d, n - 1);
    }
  }

  // ----- who wrote what ---------------------------------------------------------------

  // The save whose bytes are in place, and the one whose signature is.
  ghost function Writer(run: seq<Attempt>): (i: Option<nat>)
    ensures i.Some? ==> i.value < |run|
  {
    if run == [] then None
    else
      var last := |run| - 1;
      if run[last].done >= MovedAt(run[last].save) then Some(last) else Writer(run[..last])
  }

  ghost function Signer(run: seq<Attempt>): (i: Option<nat>)
    ensures i.Some? ==> i.value < |run| && run[i.value].save.key.Some?
  {
    if run == [] then None
    else
      var last := |run| - 1;
      if run[last].done >= 3 then if run[last].save.key.Some? then Some(last) else None
      else Signer(run[..last])
  }

  lemma {:induction false} Provenance(run: seq<Attempt>)
    requires Possible(run)
    ensures DiskAfter(run).artifact == if Writer(run).None? then None else Some(run[Writer(run).value].save.bytes)
    ensures DiskAfter(run).sidecar ==
      if Signer(run).None? then None
      else Some(Object(Covering(run[Signer(run).value].save.bytes, run[Signer(run).value].save.key.value)))
  {
    if run != [] {
      var last := |run| - 1;
      Provenance(run[..last]);
      Stages(run[last].save, DiskAfter(run[..last]), run[last].done);
    }
  }

  // ----- the verdict ------------------------------------------------------------------

  // A disk that pairs a signature with other bytes than it covers is refused by every
  // node, whatever it trusts and requires.
  lemma MixedPairRefused(d: Disk, covered: Bytes, key: Key, trusted: Trust, require': bool)
    requires d.sidecar == Some(Object(Covering(covered, key)))
    requires d.artifact.Some? && d.artifact.value != covered
    ensures Verify(d, trusted, require') == Refused(DigestMismatch)
  {
    assert Sha256(covered).of != Sha256(d.artifact.value).of;
  }

  predicate Accepted(v: Verdict) {
    v.Verified? || v.Unsigned? || v.Unverifiable?
  }

  // What an envelope has to be to vouch for these bytes: known algorithm, their digest, a
  // trusted key, and a signature made with that key over the domain and the digest.
  ghost predicate Vouches(e: Envelope, bytes: Bytes, trusted: Trust) {
    && e.algorithm == Some("ed25519")
    && e.sha256 == Some(Sha256(bytes))
    && e.keyId.Some? && e.keyId.value in trusted
    && e.signature == Some(Made(trusted[e.keyId.value], "edgesense-model-signature-v1\n", Sha256(bytes)))
  }

  // On every disk, whoever wrote it, and for every node: verified if and only if there is
  // an artifact and a sidecar that vouches for its bytes.
  lemma VerifiedIff(d: Disk, trusted: Trust, require': bool)
    ensures Verify(d, trusted, require').Verified? <==>
      && d.artifact.Some? && d.sidecar.Some? && d.sidecar.value.Object?
      && Vouches(d.sidecar.value.envelope, d.artifact.value, trusted)
  {
  }

  // A sidecar that is there is never overlooked, whatever it holds: only a missing one
  // makes an artifact unsigned, and only for a node that does not require signatures. A
  // signature is left unchecked only by a node that trusts nobody and requires nothing,
  // and then it covers the bytes. Where signatures are required only verified bytes pass.
  lemma AcceptedIff(d: Disk, trusted: Trust, require': bool)
    ensures Verify(d, trusted, require').Unsigned? <==> d.sidecar.None? && !require'
    ensures Verify(d, trusted, require').Unverifiable? <==>
      && !require' && trusted == map[]
      && d.artifact.Some? && d.sidecar.Some? && d.sidecar.value.Object?
      && d.sidecar.value.envelope.algorithm == Some("ed25519")
      && d.sidecar.value.envelope.sha256 == Some(Sha256(d.artifact.value))
    ensures require' && Accepted(Verify(d, trusted, require')) ==> Verify(d, trusted, require').Verified?
    ensures Verify(d, trusted, require').ArtifactMissing? ==> d.artifact.None?
  {
  }

  // Whoever does not have a trusted key cannot make a node verify anything: the
  // signature in place was made with a key it trusts.
  lemma ForgedRefused(d: Disk, trusted: Trust, require': bool)
    requires WellKeyed(trusted) && d.sidecar.Some? && d.sidecar.value.Object? && d.artifact.Some?
    requires forall k :: KeyId(k) in trusted ==>
      d.sidecar.value.envelope.signature != Some(Made(k, DOMAIN, Sha256(d.artifact.value)))
    ensures !Verify(d, trusted, require').Verified?
    ensures require' ==> Verify(d, trusted, require').Refused?
  {
    VerifiedIff(d, trusted, require');
    AcceptedIff(d, trusted, require');
    var e := d.sidecar.value.envelope;
    if e.keyId.Some? && e.keyId.value in trusted {
      assert KeyId(e.keyId.value.of) in trusted;
    }
  }

  // The verdict on any run, from the saves that wrote the two files.
  ghost function Expected(run: seq<Attempt>, trusted: Trust, require': bool): Verdict {
    if Signer(run).None? then if require' then Refused(RequiredButUnsigned) else Unsigned
    else if Writer(run).None? then ArtifactMissing
    else if run[Writer(run).value].save.bytes != run[Signer(run).value].save.bytes then Refused(DigestMismatch)
    else if trusted == map[] then if require' then Refused(NoTrustStore) else Unverifiable
    else if KeyId(run[Signer(run).value].save.key.value) !in trusted then Refused(UntrustedKey)
    else Verified
  }

  lemma VerdictOfRun(run: seq<Attempt>, trusted: Trust, require': bool)
    requires Possible(run) && WellKeyed(trusted)
    ensures Verify(DiskAfter(run), trusted, require') == Expected(run, trusted, require')
  {
    Provenance(run);
    if Signer(run).Some? && Writer(run).Some? {
      var signed, written := run[Signer(run).value].save, run[Writer(run).value].save;
      if written.bytes != signed.bytes {
        MixedPairRefused(DiskAfter(run), signed.bytes, signed.key.value, trusted, require');
      }
    }
  }

  // Verified bytes are the bytes of a save in the run that was signed with a trusted
  // key; and so is everything that a node which requires signatures accepts.
  lemma VerifiedWasSigned(run: seq<Attempt>, trusted: Trust, require': bool)
    requires Possible(run) && WellKeyed(trusted)
    requires var v := Verify(DiskAfter(run), trusted, require'); v.Verified? || (require' && Accepted(v))
    ensures Signer(run).Some?
    ensures DiskAfter(run).artifact == Some(run[Signer(run).value].save.bytes)
    ensures KeyId(run[Signer(run).value].save.key.value) in trusted
  {
    VerdictOfRun(run, trusted, require');
    Provenance(run);
  }

  // With no signature in place, the last save to place an artifact was an unsigned one.
  lemma {:induction false} NoSignerNoSignedWriter(run: seq<Attempt>)
    requires Possible(run) && Signer(run).None?
    ensures Writer(run).Some? ==> run[Writer(run).value].save.key.None?
  {
    if run != [] && run[|run| - 1].done < 3 {
      if run[|run| - 1].done < MovedAt(run[|run| - 1].save) {
        NoSignerNoSignedWriter(run[..|run| - 1]);
      }
    }
  }

  // A signed artifact is never taken for an unsigned one: at no moment does a save
  // expose its bytes without a signature that covers them, and no crash strips it.
  lemma UnsignedWasUnsigned(run: seq<Attempt>, trusted: Trust)
    requires Possible(run)
    requires Verify(DiskAfter(run), trusted, false) == Unsigned
    ensures Writer(run).Some? ==>
      run[Writer(run).value].save.key.None? && DiskAfter(run).artifact == Some(run[Writer(run).value].save.bytes)
    ensures Writer(run).None? ==> DiskAfter(run).artifact == None
  {
    Provenance(run);
    NoSignerNoSignedWriter(run);
  }

  // ----- saves that complete, saves that crash ----------------------------------------

  // After a completed save the disk holds its bytes, and every node accepts them that
  // should.
  lemma CompletedSaveAccepted(run: seq<Attempt>, s: Save, trusted: Trust, require': bool)
    requires Possible(run) && WellKeyed(trusted)
    ensures var whole := run + [Attempt(s, |Ops(s)|)];
      && Possible(whole)
      && DiskAfter(whole).artifact == Some(s.bytes)
      && Verify(DiskAfter(whole), trusted, require') ==
         if s.key.None? then if require' then Refused(RequiredButUnsigned) else Unsigned
         else if trusted == map[] then if require' then Refused(NoTrustStore) else Unverifiable
         else if KeyId(s.key.value) in trusted then Verified
         else Refused(UntrustedKey)
  {
    var whole := run + [Attempt(s, |Ops(s)|)];
    Provenance(whole);
    VerdictOfRun(whole, trusted, require');
  }

  // A save that stops after n operations: before the first visible change nothing has
  // happened to readers; after the last one it is as if the save had completed. In
  // between, one operation long, the new signature meets the old bytes, or the old
  // signature the new bytes: the pair is refused for its digest if and only if both are
  // there and the bytes differ. So what is accepted as signed is covered by a signature
  // on the very bytes that are read.
  lemma CrashWindow(run: seq<Attempt>, s: Save, n: nat, trusted: Trust, require': bool)
    requires Possible(run) && WellKeyed(trusted) && n <= |Ops(s)|
    ensures var cut := DiskAfter(run + [Attempt(s, n)]);
      var before := DiskAfter(run);
      var whole := DiskAfter(run + [Attempt(s, |Ops(s)|)]);
      var first := if s.key.Some? then 3 else 2;
      && (n < first ==> cut.artifact == before.artifact && cut.sidecar == before.sidecar)
      && (n > first ==> cut.artifact == whole.artifact && cut.sidecar == whole.sidecar)
      && (n == first && s.key.Some? ==>
            && cut.artifact == before.artifact && cut.sidecar == whole.sidecar
            && (Verify(cut, trusted, require') == Refused(DigestMismatch)
                <==> before.artifact.Some? && before.artifact != Some(s.bytes)))
      && (n == first && s.key.None? ==>
            && cut.artifact == Some(s.bytes) && cut.sidecar == before.sidecar
            && (Verify(cut, trusted, require') == Refused(DigestMismatch)
                <==> Signer(run).Some? && run[Signer(run).value].save.bytes != s.bytes))
      && (n == first && Verify(cut, trusted, require') in {Verified, Unverifiable} ==>
            && cut.artifact == Some(s.bytes)
            && cut.sidecar.Some? && cut.sidecar.value.Object?
            && cut.sidecar.value.envelope.sha256 == Some(Sha256(s.bytes)))
  {
    var cut := run + [Attempt(s, n)];
    var whole := run + [Attempt(s, |Ops(s)|)];
    assert cut[..|run|] == run && whole[..|run|] == run;
    Stages(s, DiskAfter(run), n);
    Stages(s, DiskAfter(run), |Ops(s)|);
    Provenance(run);
  }
}
