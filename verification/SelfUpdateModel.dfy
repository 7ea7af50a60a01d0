/** Durable state of the controller self-update and every durable write to it, with what
    holds after every run. */
module SelfUpdateModel {
  import opened Prelude
  import Runs

  /** A SHA-256 digest stands for the bytes it was computed from. */
  type Digest = nat
  type Version = nat

  datatype Path = RollbackCopy(sha: Digest) | Candidate(sha: Digest)

  datatype Trust = Trust(version: Version, sha: Digest)
  datatype RollbackState = RollbackState(version: Version, sha: Digest, artifact: Path)

  datatype Operation = Update | Rollback

  datatype Phase =
    | Intent | RollbackPrepared | CandidatePrepared | CandidateVerified
    | Installed | RollbackStateCommitted | TrustCommitted

  datatype Journal = Journal(
    operation: Operation, phase: Phase, fromRelease: Trust, toRelease: Trust,
    artifact: Path, rollbackSha: Digest, staged: Option<Path>)

  /** The installed binary, trust.json, rollback.json, the saved artifacts and
      update-transaction.json. */
  datatype Disk = Disk(
    install: Digest, trust: Option<Trust>, rollback: Option<RollbackState>,
    files: map<Path, Digest>, journal: Option<Journal>)

  function FileAt(d: Disk, path: Path): Option<Digest> {
    if path in d.files then Some(d.files[path]) else None
  }

  predicate Unstarted(phase: Phase) {
    phase.Intent? || phase.RollbackPrepared? || phase.CandidatePrepared? || phase.CandidateVerified?
  }

  /** The floor an update must respect: no older version, no other bytes for the same one. */
  predicate TrustAllows(trust: Option<Trust>, release: Trust) {
    trust.Some? ==>
      && trust.value.version <= release.version
      && (trust.value.version == release.version ==> trust.value.sha == release.sha)
  }

  function UpdateJournal(fromRelease: Trust, toRelease: Trust): Journal {
    Journal(Update, Intent, fromRelease, toRelease, RollbackCopy(fromRelease.sha), fromRelease.sha,
            Some(Candidate(toRelease.sha)))
  }

  function RollbackJournal(fromRelease: Trust, state: RollbackState): Journal {
    Journal(Rollback, Intent, fromRelease, Trust(state.version, state.sha), state.artifact, state.sha, None)
  }

  /** A rejected update turned around: what was the source is now the target. */
  function Turned(j: Journal): Journal {
    j.(operation := Rollback, phase := Intent, fromRelease := j.toRelease, toRelease := j.fromRelease,
       staged := None)
  }

  predicate StagedGone(d: Disk, j: Journal) {
    j.staged.Some? ==> j.staged.value !in d.files
  }

  // ----------------------------------------------------------------- steps

  datatype Step =
    | Begin(journal: Journal)
    | SaveArtifact
    | SaveCandidate
    | Advance(phase: Phase)
    | Install
    | RemoveStaged
    | TurnAround
    | CommitRollback
    | CommitTrust
    | Finish
    | Discard

  predicate BeginEnabled(d: Disk, j: Journal) {
    && j.fromRelease.sha == d.install
    && (d.trust.Some? ==> j.fromRelease.version == d.trust.value.version)
    && match j.operation
       case Update => j == UpdateJournal(j.fromRelease, j.toRelease) && TrustAllows(d.trust, j.toRelease)
       case Rollback =>
         && d.rollback.Some? && FileAt(d, d.rollback.value.artifact) == Some(d.rollback.value.sha)
         && j == RollbackJournal(j.fromRelease, d.rollback.value)
  }

  predicate AdvanceEnabled(d: Disk, j: Journal, phase: Phase) {
    match phase
    case Intent => false
    case RollbackPrepared => j.operation.Update? && j.phase.Intent? && FileAt(d, j.artifact) == Some(j.fromRelease.sha)
    case CandidatePrepared => j.operation.Update? && j.phase.RollbackPrepared? && !StagedGone(d, j)
    case CandidateVerified => j.operation.Update? && Unstarted(j.phase) && !StagedGone(d, j)
    case Installed => (Unstarted(j.phase) || j.phase.Installed?) && d.install == j.toRelease.sha
    case RollbackStateCommitted =>
      && j.operation.Update? && j.phase.Installed?
      && d.rollback == Some(RollbackState(j.fromRelease.version, j.fromRelease.sha, j.artifact))
    case TrustCommitted =>
      && (if j.operation.Update? then j.phase.RollbackStateCommitted? else j.phase.Installed?)
      && d.trust == Some(j.toRelease)
  }

  predicate InstallEnabled(d: Disk, j: Journal) {
    match j.operation
    case Update => j.phase.CandidateVerified? && !StagedGone(d, j)
    case Rollback => j.phase.Intent? && FileAt(d, j.artifact) == Some(j.toRelease.sha)
  }

  predicate RemoveStagedEnabled(d: Disk, j: Journal) {
    && j.staged.Some?
    && (|| j.phase.TrustCommitted?
        || (Unstarted(j.phase) && d.install == j.fromRelease.sha)
        || TurnEnabled(d, j))
  }

  /** The candidate is installed and the earlier binary is at hand. */
  predicate TurnEnabled(d: Disk, j: Journal) {
    j.operation.Update? && d.install == j.toRelease.sha && FileAt(d, j.artifact) == Some(j.fromRelease.sha)
  }

  predicate Enabled(d: Disk, s: Step) {
    if s.Begin? then d.journal.None? && BeginEnabled(d, s.journal)
    else
      d.journal.Some? &&
      var j := d.journal.value;
      match s
      case SaveArtifact => j.operation.Update? && j.phase.Intent? && d.install == j.fromRelease.sha
      case SaveCandidate => j.operation.Update? && j.phase.RollbackPrepared?
      case Advance(phase) => AdvanceEnabled(d, j, phase)
      case Install => InstallEnabled(d, j)
      case RemoveStaged => RemoveStagedEnabled(d, j)
      case TurnAround => TurnEnabled(d, j) && StagedGone(d, j)
      case CommitRollback => TurnEnabled(d, j) && !Unstarted(j.phase)
      case CommitTrust =>
        && d.install == j.toRelease.sha && !Unstarted(j.phase)
        && (j.operation.Update? ==> !j.phase.Installed?)
      case Finish => j.phase.TrustCommitted? && StagedGone(d, j)
      case Discard => Unstarted(j.phase) && d.install == j.fromRelease.sha && j.operation.Update? && StagedGone(d, j)
  }

  function Apply(d: Disk, s: Step): Disk {
    if s.Begin? then d.(journal := Some(s.journal)) else
    if d.journal.None? then d else
    var j := d.journal.value;
    match s
    case SaveArtifact => d.(files := d.files[j.artifact := j.fromRelease.sha])
    case SaveCandidate => if j.staged.Some? then d.(files := d.files[j.staged.value := j.toRelease.sha]) else d
    case Advance(phase) => d.(journal := Some(j.(phase := phase)))
    case Install => d.(install := j.toRelease.sha)
    case RemoveStaged => if j.staged.Some? then d.(files := d.files - {j.staged.value}) else d
    case TurnAround => d.(journal := Some(Turned(j)))
    case CommitRollback =>
      d.(rollback := Some(RollbackState(j.fromRelease.version, j.fromRelease.sha, j.artifact)))
    case CommitTrust => d.(trust := Some(j.toRelease))
    case Finish => d.(journal := None)
    case Discard => d.(journal := None)
  }

  function Fresh(origin: Digest): Disk { Disk(origin, None, None, map[], None) }

  ghost function MACHINE(origin: Digest): Runs.Machine<Disk, Step> {
    Runs.Machine(Fresh(origin), Enabled, Apply)
  }

  // ------------------------------------------------------------- invariant

  /** Files are named after their bytes, and the saved way back is never lost. */
  ghost predicate FilesInv(d: Disk) {
    && (forall path :: path in d.files ==> d.files[path] == path.sha)
    && (d.rollback.Some? ==>
          && d.rollback.value.artifact == RollbackCopy(d.rollback.value.sha)
          && d.rollback.value.artifact in d.files)
    && (forall path :: path in d.files && path.Candidate? ==>
          d.journal.Some? && d.journal.value.staged == Some(path))
  }

  /** The trusted digest is the installed one, or nothing was ever installed. */
  predicate TrustNames(d: Disk, origin: Digest, sha: Digest) {
    if d.trust.Some? then d.trust.value.sha == sha else sha == origin
  }

  ghost predicate JournalInv(d: Disk, origin: Digest, j: Journal) {
    var (from, to) := (j.fromRelease.sha, j.toRelease.sha);
    var artifactSaved := j.artifact in d.files;
    && (d.install == from || d.install == to)
    && match j.operation
       case Update =>
         && j == UpdateJournal(j.fromRelease, j.toRelease).(phase := j.phase)
         && TrustAllows(d.trust, j.toRelease)
         && (Unstarted(j.phase) ==> TrustNames(d, origin, from))
         && (!Unstarted(j.phase) ==> d.install == to)
         && (d.install != from ==> !j.phase.Intent? && artifactSaved)
         && (!j.phase.Intent? && !j.phase.Installed? ==> artifactSaved)
         && (!StagedGone(d, j) ==> !j.phase.Intent? && artifactSaved)
         && (j.phase.RollbackPrepared? ==> d.install == from)
         && (j.phase.TrustCommitted? ==> d.trust == Some(j.toRelease))
       case Rollback =>
         && j.artifact == RollbackCopy(to) && j.rollbackSha == to && j.staged.None? && artifactSaved
         && (j.phase.Intent? || j.phase.Installed? || j.phase.TrustCommitted?)
         && (!j.phase.Intent? ==> d.install == to)
         && (j.phase.TrustCommitted? ==> d.trust == Some(j.toRelease))
  }

  ghost predicate Inv(d: Disk, origin: Digest) {
    && FilesInv(d)
    && (if d.journal.Some? then JournalInv(d, origin, d.journal.value)
        else TrustNames(d, origin, d.install))
  }

  lemma StepKeepsInv(d: Disk, s: Step, origin: Digest)
    requires Inv(d, origin) && Enabled(d, s)
    ensures Inv(Apply(d, s), origin)
  {
  }

  lemma {:induction false} RunKeepsInv(origin: Digest, log: seq<Step>)
    requires Runs.IsRun(MACHINE(origin), log)
    ensures Inv(Runs.After(MACHINE(origin), log), origin)
  {
    var inv := (d: Disk) => Inv(d, origin);
    forall d, s | inv(d) && Enabled(d, s) ensures inv(Apply(d, s)) {
      StepKeepsInv(d, s, origin);
    }
    Runs.Inductive(MACHINE(origin), inv, log);
  }
}
