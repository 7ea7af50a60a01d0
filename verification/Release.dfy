/** Verification of a downloaded Release against its attestations, and the cache that may
    stand in for the download but never for the verification. */
module Release {
  import opened Prelude

  type Byte = bv8

  const MAX_ATTESTATIONS := 20

  /** An injective digest of a file's bytes. */
  datatype Digest = Sha256(bytes: seq<Byte>)

  datatype Artifact = Artifact(name: string, sha: Digest, size: nat)

  /** `lawful`: what the manifest's own policy validation says. */
  datatype Manifest = Manifest(version: string, identity: string, artifacts: seq<Artifact>, lawful: bool)

  datatype Subject = Subject(name: string, sha: Digest)

  /** `release`: the in-toto and predicate types are the expected ones; `manifest` is None
      where the predicate is no closed manifest. */
  datatype Statement = Statement(release: bool, subjects: seq<Subject>, manifest: Option<Manifest>)

  /** `signed`: what the signature check says for the expected identity. */
  datatype Attestation = Attestation(
    repositoryId: nat, initiatorNamed: bool, mediaTypeKnown: bool, statement: Option<Statement>, signed: bool)

  /** What is being verified: bytes in the workspace under a name, for a version and signer. */
  datatype Request = Request(version: string, identity: string, blob: string, bytes: seq<Byte>)

  // -------------------------------------------------------- one attestation

  datatype Verdict = Fails | Skipped | Matches(manifest: Manifest)

  predicate EnvelopeValid(a: Attestation) {
    a.repositoryId != 0 && a.initiatorNamed && a.mediaTypeKnown
  }

  /** `require_subject_binding` */
  predicate NamesBlob(subjects: seq<Subject>, r: Request) {
    exists i :: 0 <= i < |subjects| && subjects[i] == Subject(r.blob, Sha256(r.bytes))
  }

  /** The first artifact of that name, as the search through the manifest finds it. */
  function FindArtifact(artifacts: seq<Artifact>, name: string): (found: Option<Artifact>)
    ensures found.Some? ==> found.value in artifacts && found.value.name == name
    ensures found.None? ==> forall a :: a in artifacts ==> a.name != name
  {
    if artifacts == [] then None
    else if artifacts[0].name == name then Some(artifacts[0])
    else FindArtifact(artifacts[1..], name)
  }

  /** The manifest declares exactly these bytes under this name. */
  predicate Binds(m: Manifest, r: Request) {
    var artifact := FindArtifact(m.artifacts, r.blob);
    && artifact.Some? && artifact.value.sha == Sha256(r.bytes) && artifact.value.size == |r.bytes|
  }

  /** What one turn of the verification loop makes of an attestation. */
  function Judge(r: Request, a: Attestation): Verdict {
    if !EnvelopeValid(a) || a.statement.None? then Fails
    else if !a.statement.value.release then Skipped
    else if !NamesBlob(a.statement.value.subjects, r) || a.statement.value.manifest.None? then Fails
    else
      var m := a.statement.value.manifest.value;
      if m.version != r.version || m.identity != r.identity then Skipped
      else if !a.signed || !m.lawful || !Binds(m, r) then Fails
      else Matches(m)
  }

  // -------------------------------------------------------- all of them

  /** No attestation fails, at least one matches, and all that match say the same. */
  ghost predicate Accepts(r: Request, attestations: seq<Attestation>, m: Manifest) {
    && 0 < |attestations| <= MAX_ATTESTATIONS
    && (forall a :: a in attestations ==> Judge(r, a) == Skipped || Judge(r, a) == Matches(m))
    && exists a :: a in attestations && Judge(r, a) == Matches(m)
  }

  /** The attestation comes from the expected signer, for a known repository and initiator, is
      about these very bytes under this name, and its manifest is this one, for this version and
      identity, and declares them so. */
  ghost predicate Vouches(a: Attestation, r: Request, m: Manifest) {
    && a.signed && a.repositoryId > 0 && a.initiatorNamed && a.mediaTypeKnown
    && a.statement.Some? && a.statement.value.release && a.statement.value.manifest == Some(m)
    && Subject(r.blob, Sha256(r.bytes)) in a.statement.value.subjects
    && m.lawful && m.version == r.version && m.identity == r.identity
    && exists i :: 0 <= i < |m.artifacts| && Declares(m.artifacts, i, r)
  }

  predicate Declares(artifacts: seq<Artifact>, i: nat, r: Request)
    requires i < |artifacts|
  {
    && artifacts[i] == Artifact(r.blob, Sha256(r.bytes), |r.bytes|)
    && forall k :: 0 <= k < i ==> artifacts[k].name != r.blob
  }

  /** The attestation is well-formed but speaks of something else than a release, or about
      these bytes as another version or for another identity. */
  predicate BesideThePoint(a: Attestation, r: Request) {
    && a.repositoryId > 0 && a.initiatorNamed && a.mediaTypeKnown && a.statement.Some?
    && var s := a.statement.value;
    s.release ==>
      && Subject(r.blob, Sha256(r.bytes)) in s.subjects && s.manifest.Some?
      && (s.manifest.value.version != r.version || s.manifest.value.identity != r.identity)
  }

  lemma {:induction false} FirstIsFound(artifacts: seq<Artifact>, i: nat, r: Request)
    requires i < |artifacts| && Declares(artifacts, i, r)
    ensures FindArtifact(artifacts, r.blob) == Some(artifacts[i])
  {
    if i > 0 { FirstIsFound(artifacts[1..], i - 1, r); }
  }

  lemma {:induction false} FoundIsFirst(artifacts: seq<Artifact>, r: Request) returns (i: nat)
    requires FindArtifact(artifacts, r.blob) == Some(Artifact(r.blob, Sha256(r.bytes), |r.bytes|))
    ensures i < |artifacts| && Declares(artifacts, i, r)
  {
    i := 0;
    if artifacts[0].name != r.blob {
      i := FoundIsFirst(artifacts[1..], r);
      i := i + 1;
    }
  }

  lemma JudgedSo(r: Request, a: Attestation, m: Manifest)
    ensures Judge(r, a) == Matches(m) <==> Vouches(a, r, m)
    ensures Judge(r, a) == Skipped <==> BesideThePoint(a, r)
  {
    if i :| 0 <= i < |m.artifacts| && Declares(m.artifacts, i, r) { FirstIsFound(m.artifacts, i, r); }
    if Binds(m, r) { var i := FoundIsFirst(m.artifacts, r); }
  }

  /** A manifest is accepted exactly if there are attestations and no more than the limit, one
      vouches for it, and each of the others vouches for it too or is beside the point. So an
      unsigned or malformed one refuses everything. */
  lemma AcceptsExactly(r: Request, attestations: seq<Attestation>, m: Manifest)
    ensures Accepts(r, attestations, m) <==>
              && 0 < |attestations| <= MAX_ATTESTATIONS
              && (exists a :: a in attestations && Vouches(a, r, m))
              && (forall a :: a in attestations ==> Vouches(a, r, m) || BesideThePoint(a, r))
  {
    forall a ensures Judge(r, a) == Matches(m) <==> Vouches(a, r, m)
             ensures Judge(r, a) == Skipped <==> BesideThePoint(a, r) {
      JudgedSo(r, a, m);
    }
  }

  /** `verified_manifest_from_attestations` */
  method VerifiedManifest(r: Request, attestations: seq<Attestation>) returns (verified: Option<Manifest>)
    ensures verified.Some? ==> Accepts(r, attestations, verified.value)
    ensures verified.None? ==> forall m :: !Accepts(r, attestations, m)
  {
    if attestations == [] || |attestations| > MAX_ATTESTATIONS { return None; }
    verified := None;
    for i := 0 to |attestations|
      invariant verified.None? ==> forall a :: a in attestations[..i] ==> Judge(r, a) == Skipped
      invariant verified.Some? ==>
                  && (forall a :: a in attestations[..i] ==>
                        Judge(r, a) == Skipped || Judge(r, a) == Matches(verified.value))
                  && exists a :: a in attestations[..i] && Judge(r, a) == Matches(verified.value)
    {
      assert attestations[..i + 1] == attestations[..i] + [attestations[i]];
      var verdict := Judge(r, attestations[i]);
      assert attestations[i] in attestations;
      match verdict {
        case Fails => return None;
        case Skipped =>
        case Matches(candidate) =>
          if verified.Some? && verified.value != candidate {
            ConflictRefused(r, attestations, i, verified.value, candidate);
            return None;
          }
          verified := Some(candidate);
      }
    }
    assert attestations[..|attestations|] == attestations;
  }

  lemma ConflictRefused(r: Request, attestations: seq<Attestation>, i: nat, first: Manifest, second: Manifest)
    requires i < |attestations| && first != second && Judge(r, attestations[i]) == Matches(second)
    requires exists a :: a in attestations[..i] && Judge(r, a) == Matches(first)
    ensures forall m :: !Accepts(r, attestations, m)
  {
    var a :| a in attestations[..i] && Judge(r, a) == Matches(first);
    assert a in attestations && attestations[i] in attestations;
  }

  /** What is accepted is one manifest, for the asked version and signer, that declares the
      very bytes that were checked. */
  lemma AcceptedIsBound(r: Request, attestations: seq<Attestation>, m: Manifest, n: Manifest)
    requires Accepts(r, attestations, m)
    ensures m.version == r.version && m.identity == r.identity && m.lawful && Binds(m, r)
    ensures Accepts(r, attestations, n) ==> n == m
  {
    var a :| a in attestations && Judge(r, a) == Matches(m);
  }

  /** Neither acceptance nor the manifest depends on the order of the attestations. */
  lemma OrderIsIrrelevant(r: Request, xs: seq<Attestation>, ys: seq<Attestation>, m: Manifest)
    requires multiset(xs) == multiset(ys)
    ensures Accepts(r, xs, m) <==> Accepts(r, ys, m)
  {
    assert |xs| == |multiset(xs)| == |multiset(ys)| == |ys|;
    forall a ensures a in xs <==> a in ys {
      assert a in xs <==> a in multiset(xs);
      assert a in ys <==> a in multiset(ys);
    }
  }

  /** Adding a skipped attestation changes nothing, and adding a failing one refuses all. */
  lemma OneMore(r: Request, xs: seq<Attestation>, a: Attestation, m: Manifest)
    requires 0 < |xs| < MAX_ATTESTATIONS
    ensures Judge(r, a).Skipped? ==> (Accepts(r, xs + [a], m) <==> Accepts(r, xs, m))
    ensures Judge(r, a).Fails? ==> !Accepts(r, xs + [a], m)
  {
    assert a in xs + [a];
    forall b ensures b in xs + [a] <==> b in xs || b == a {}
    if Accepts(r, xs, m) {
      var b :| b in xs && Judge(r, b) == Matches(m);
      assert b in xs + [a];
    }
    if Accepts(r, xs + [a], m) {
      var b :| b in xs + [a] && Judge(r, b) == Matches(m);
      assert b == a || b in xs;
    }
  }

  // ----------------------------------------------------------------- cache

  datatype Key = Key(repository: string, version: string, blob: string)

  /** What the attestation authority answers for a digest; None where it cannot be reached. */
  type Authority = Digest -> Option<seq<Attestation>>

  /** The authority was reached, and its attestations accept no manifest for these bytes. */
  ghost predicate Rejected(key: Key, identity: string, authority: Authority, bytes: seq<Byte>) {
    && authority(Sha256(bytes)).Some?
    && forall m :: !Accepts(Request(key.version, identity, key.blob, bytes), authority(Sha256(bytes)).value, m)
  }

  /** The authority was reached, and its attestations accept this manifest for these bytes. */
  ghost predicate Passed(key: Key, identity: string, authority: Authority, bytes: seq<Byte>, m: Manifest) {
    && authority(Sha256(bytes)).Some?
    && Accepts(Request(key.version, identity, key.blob, bytes), authority(Sha256(bytes)).value, m)
  }

  /** What an undisturbed verification returns and from which bytes: those of the cache if they
      pass, those of a fresh download if there is no cached file or its bytes were rejected. */
  ghost predicate Obtains(key: Key, identity: string, hit: Option<seq<Byte>>, download: Option<seq<Byte>>,
                          first: Authority, second: Authority, bytes: seq<Byte>, m: Manifest)
  {
    match hit
    case Some(stored) =>
      || (bytes == stored && Passed(key, identity, first, stored, m))
      || (Rejected(key, identity, first, stored) && download == Some(bytes) && Passed(key, identity, second, bytes, m))
    case None => download == Some(bytes) && Passed(key, identity, first, bytes, m)
  }

  class Workspace {
    const calm: bool
    var cache: map<Key, seq<Byte>>
    // The file under verification in this command's private directory.
    var work: Option<seq<Byte>>

    constructor (calm: bool)
      ensures cache == map[] && work.None? && this.calm == calm
    {
      this.calm := calm;
      cache, work := map[], None;
    }

    /** The attestations for the bytes that are in the workspace accept this manifest. */
    ghost predicate Verified(key: Key, identity: string, authority: Authority, m: Manifest) reads this {
      work.Some? && Passed(key, identity, authority, work.value, m)
    }

    /** `faulted`: a file that the verification writes beside the bytes could not be written. */
    method Verify(key: Key, identity: string, authority: Authority)
      returns (reached: bool, faulted: bool, m: Option<Manifest>)
      requires work.Some?
      ensures reached <==> authority(Sha256(work.value)).Some?
      ensures m.Some? ==> reached && !faulted && Verified(key, identity, authority, m.value)
      ensures reached && !faulted && m.None? ==> Rejected(key, identity, authority, work.value)
      ensures calm ==> !faulted
    {
      var response := authority(Sha256(work.value));
      if response.None? { return false, false, None; }
      reached := true;
      var io := Attempt(calm);
      faulted := !io.Done?;
      if faulted { return true, true, None; }
      m := VerifiedManifest(Request(key.version, identity, key.blob, work.value), response.value);
    }

    /** `verified_release_candidate`. `cached` says whether there is a cache at all; `download`
        is what one fresh download would bring; the authority is asked once for each set of
        bytes. A cached file is only a way to get bytes: it is kept when nobody could be asked,
        dropped when its bytes fail or the verification cannot write its files, and written
        only with bytes that passed. */
    method VerifiedCandidate(key: Key, identity: string, cached: bool, download: Option<seq<Byte>>,
                             first: Authority, second: Authority)
      returns (m: Option<Manifest>, faulted: bool)
      modifies this
      ensures calm ==> !faulted
      ensures m.Some? ==> Verified(key, identity, first, m.value) || Verified(key, identity, second, m.value)
      ensures m.Some? ==> work.Some? && Binds(m.value, Request(key.version, identity, key.blob, work.value))
      ensures forall k :: k != key ==> (k in cache <==> k in old(cache)) && (k in cache ==> cache[k] == old(cache)[k])
      ensures !cached ==> cache == old(cache)
      ensures key in cache ==>
                || (key in old(cache) && cache[key] == old(cache)[key])
                || (m.Some? && work == Some(cache[key]))
      ensures cached && key in old(cache) && key !in cache ==>
                first(Sha256(old(cache)[key])).Some? && (faulted || Rejected(key, identity, first, old(cache)[key]))
      ensures calm && cached && m.Some? ==> key in cache && work == Some(cache[key])
      ensures var hit := if cached && key in old(cache) then Some(old(cache)[key]) else None;
              && (calm && m.Some? ==>
                    work.Some? && Obtains(key, identity, hit, download, first, second, work.value, m.value))
              && (calm && m.None? ==>
                    && forall bytes, n :: !Obtains(key, identity, hit, download, first, second, bytes, n))
              && (calm && m.None? && hit.Some? ==> (key in cache <==> !Rejected(key, identity, first, hit.value)))
    {
      m, faulted := None, false;
      var io := Attempt(calm);
      // A cached file that cannot be copied counts as absent.
      var hit := cached && key in cache && io.Done?;
      if hit {
        work := Some(cache[key]);
      } else {
        if download.None? { return; }
        work := download;
      }
      var reached;
      reached, faulted, m := Verify(key, identity, first);
      if !reached { return; }
      if m.None? && hit {
        io := Attempt(calm);
        if !io.Done? { return; }
        cache := cache - {key};
        hit := false;
        if download.None? { return; }
        work := download;
        var again;
        reached, again, m := Verify(key, identity, second);
        faulted := faulted || again;
      }
      if m.None? { return; }
      BoundAfterVerification(key, identity, first, second, m.value);
      if cached && !hit {
        io := Attempt(calm);
        if io.Done? { cache := cache[key := work.value]; }
      }
    }

    lemma BoundAfterVerification(key: Key, identity: string, first: Authority, second: Authority, m: Manifest)
      requires Verified(key, identity, first, m) || Verified(key, identity, second, m)
      ensures Binds(m, Request(key.version, identity, key.blob, work.value))
    {
      var r := Request(key.version, identity, key.blob, work.value);
      if Verified(key, identity, first, m) {
        AcceptedIsBound(r, first(Sha256(work.value)).value, m, m);
      } else {
        AcceptedIsBound(r, second(Sha256(work.value)).value, m, m);
      }
    }
  }
}
