/** `self update`, `self rollback` and the recovery that precedes both. One lock covers
    each command; every durable write may fail or be the last thing the process does. */
module SelfUpdate {
  import opened Prelude
  import opened SelfUpdateModel
  import opened SelfUpdateSafety
  import Runs

  /** `Rejected` and `Restored` return an error to the user although the journal is gone. */
  datatype Recovery = Clean | Completed | Discarded | Rejected | Restored | Bailed | Stopped

  datatype UpdateOutcome =
    | RecoveryEnded(recovery: Recovery) | TrustRefused | CandidateRejected | CandidateRestored
    | Updated | UpdateStopped

  datatype RollbackOutcome =
    | RollbackRecoveryEnded(recovery: Recovery) | Unavailable | ArtifactChanged | RolledBack | RollbackStopped

  /** Whether a candidate passes its check as a staged copy, and once installed. */
  datatype Checks = Checks(staged: bool, installed: bool)

  class Controller {
    const origin: Digest
    // No write of this class fails and no process is killed.
    const calm: bool
    var install: Digest
    var trust: Option<Trust>
    var rollback: Option<RollbackState>
    var files: map<Path, Digest>
    var journal: Option<Journal>
    ghost var log: seq<Step>

    ghost function Snap(): Disk reads this {
      Disk(install, trust, rollback, files, journal)
    }

    ghost predicate Valid() reads this {
      Runs.IsRun(MACHINE(origin), log) && Runs.After(MACHINE(origin), log) == Snap()
    }

    ghost predicate Journaled(j: Journal) reads this {
      Valid() && journal == Some(j)
    }

    constructor (running: Digest, calm: bool)
      ensures Valid() && Snap() == Fresh(running) && this.calm == calm
    {
      this.calm := calm;
      origin, install, trust, rollback, files, journal := running, running, None, None, map[], None;
      log := [];
    }

    // ------------------------------------------------------ durable writes

    method BeginJournal(j: Journal) returns (io: Io)
      requires Valid() && Enabled(Snap(), Begin(j))
      modifies `journal, `log
      ensures Valid() && journal == if io.Done? then Some(j) else None
      ensures calm ==> io.Done?
    {
      io := Attempt(calm);
      if io.Done? {
        Runs.Extend(MACHINE(origin), log, Begin(j));
        journal := Some(j);
        log := log + [Begin(j)];
      }
    }

    method PersistPhase(j: Journal, phase: Phase) returns (io: Io)
      requires Journaled(j) && Enabled(Snap(), Advance(phase))
      modifies `journal, `log
      ensures Journaled(if io.Done? then j.(phase := phase) else j)
      ensures calm ==> io.Done?
    {
      io := Attempt(calm);
      if io.Done? {
        Runs.Extend(MACHINE(origin), log, Advance(phase));
        journal := Some(j.(phase := phase));
        log := log + [Advance(phase)];
      }
    }

    method PersistTurned(j: Journal) returns (io: Io)
      requires Journaled(j) && Enabled(Snap(), TurnAround)
      modifies `journal, `log
      ensures Journaled(if io.Done? then Turned(j) else j)
      ensures calm ==> io.Done?
    {
      io := Attempt(calm);
      if io.Done? {
        Runs.Extend(MACHINE(origin), log, TurnAround);
        journal := Some(Turned(j));
        log := log + [TurnAround];
      }
    }

    method CopyToArtifact(j: Journal) returns (io: Io)
      requires Journaled(j) && Enabled(Snap(), SaveArtifact)
      modifies `files, `log
      ensures Journaled(j)
      ensures files == if io.Done? then old(files)[j.artifact := j.fromRelease.sha] else old(files)
      ensures calm ==> io.Done?
    {
      io := Attempt(calm);
      if io.Done? {
        Runs.Extend(MACHINE(origin), log, SaveArtifact);
        files := files[j.artifact := j.fromRelease.sha];
        log := log + [SaveArtifact];
      }
    }

    method CopyToStaged(j: Journal, staged: Path) returns (io: Io)
      requires Journaled(j) && Enabled(Snap(), SaveCandidate) && j.staged == Some(staged)
      modifies `files, `log
      ensures Journaled(j)
      ensures files == if io.Done? then old(files)[staged := j.toRelease.sha] else old(files)
      ensures calm ==> io.Done?
    {
      io := Attempt(calm);
      if io.Done? {
        Runs.Extend(MACHINE(origin), log, SaveCandidate);
        files := files[staged := j.toRelease.sha];
        log := log + [SaveCandidate];
      }
    }

    method CopyToInstall(j: Journal) returns (io: Io)
      requires Journaled(j) && Enabled(Snap(), Install)
      modifies `install, `log
      ensures Journaled(j)
      ensures install == if io.Done? then j.toRelease.sha else old(install)
      ensures calm ==> io.Done?
    {
      io := Attempt(calm);
      if io.Done? {
        Runs.Extend(MACHINE(origin), log, Install);
        install := j.toRelease.sha;
        log := log + [Install];
      }
    }

    /** Removes the staged candidate when the journal names one that is there. */
    method RemoveCandidate(j: Journal) returns (io: Io)
      requires Journaled(j) && (!StagedGone(Snap(), j) ==> Enabled(Snap(), RemoveStaged))
      modifies `files, `log
      ensures Journaled(j)
      ensures files == if io.Done? && j.staged.Some? then old(files) - {j.staged.value} else old(files)
      ensures calm ==> io.Done?
    {
      io := Done;
      if j.staged.Some? && j.staged.value in files {
        io := Attempt(calm);
        if io.Done? {
          Runs.Extend(MACHINE(origin), log, RemoveStaged);
          files := files - {j.staged.value};
          log := log + [RemoveStaged];
        }
      }
    }

    method WriteRollbackState(j: Journal) returns (io: Io)
      requires Journaled(j) && Enabled(Snap(), CommitRollback)
      modifies `rollback, `log
      ensures Journaled(j)
      ensures rollback == if io.Done? then Some(RollbackState(j.fromRelease.version, j.fromRelease.sha, j.artifact))
                          else old(rollback)
      ensures calm ==> io.Done?
    {
      io := Attempt(calm);
      if io.Done? {
        Runs.Extend(MACHINE(origin), log, CommitRollback);
        rollback := Some(RollbackState(j.fromRelease.version, j.fromRelease.sha, j.artifact));
        log := log + [CommitRollback];
      }
    }

    method WriteTrust(j: Journal) returns (io: Io)
      requires Journaled(j) && Enabled(Snap(), CommitTrust)
      modifies `trust, `log
      ensures Journaled(j)
      ensures trust == if io.Done? then Some(j.toRelease) else old(trust)
      ensures calm ==> io.Done?
    {
      io := Attempt(calm);
      if io.Done? {
        Runs.Extend(MACHINE(origin), log, CommitTrust);
        trust := Some(j.toRelease);
        log := log + [CommitTrust];
      }
    }

    method RemoveJournal(j: Journal, ghost s: Step) returns (io: Io)
      requires Journaled(j) && Enabled(Snap(), s) && (s.Finish? || s.Discard?)
      modifies `journal, `log
      ensures Valid() && journal == if io.Done? then None else Some(j)
      ensures calm ==> io.Done?
    {
      io := Attempt(calm);
      if io.Done? {
        Runs.Extend(MACHINE(origin), log, s);
        journal := None;
        log := log + [s];
      }
    }

    // ------------------------------------------------------- shared endings

    /** `finish_self_update_journal` */
    method FinishJournal(j: Journal) returns (io: Io)
      requires Journaled(j) && j.phase.TrustCommitted?
      modifies `files, `journal, `log
      ensures Valid() && (io.Done? ==> journal.None?)
      ensures calm ==> io.Done?
    {
      io := RemoveCandidate(j);
      if !io.Done? { return; }
      io := RemoveJournal(j, Finish);
    }

    /** `discard_unstarted_self_update_journal`: the candidate first, then the journal. */
    method DiscardJournal(j: Journal) returns (io: Io)
      requires Journaled(j) && j.operation.Update? && Unstarted(j.phase) && install == j.fromRelease.sha
      modifies `files, `journal, `log
      ensures Valid() && (io.Done? ==> journal.None?)
      ensures calm ==> io.Done?
    {
      io := RemoveCandidate(j);
      if !io.Done? { return; }
      io := RemoveJournal(j, Discard);
    }

    /** Commits the rollback record and the trust record of an installed update. */
    method CommitUpdate(j: Journal) returns (io: Io)
      requires Journaled(j) && TurnEnabled(Snap(), j) && !Unstarted(j.phase)
      modifies this
      ensures Valid() && install == old(install)
      ensures io.Done? ==>
                && journal.None? && trust == Some(j.toRelease)
                && rollback == Some(RollbackState(j.fromRelease.version, j.fromRelease.sha, j.artifact))
      ensures calm ==> io.Done?
    {
      io := WriteRollbackState(j);
      if !io.Done? { return; }
      var at := j;
      if at.phase.Installed? {
        io := PersistPhase(at, RollbackStateCommitted);
        if !io.Done? { return; }
        at := at.(phase := RollbackStateCommitted);
      }
      io := WriteTrust(at);
      if !io.Done? { return; }
      if at.phase.RollbackStateCommitted? {
        io := PersistPhase(at, TrustCommitted);
        if !io.Done? { return; }
        at := at.(phase := TrustCommitted);
      }
      io := FinishJournal(at);
    }

    /** `restore_rejected_update`: turns the journal into a rollback to its source. */
    method RestoreRejected(j: Journal) returns (io: Io)
      requires Journaled(j) && TurnEnabled(Snap(), j)
      modifies this
      ensures Valid()
      ensures io.Done? ==> journal.None? && install == j.fromRelease.sha && trust == Some(j.fromRelease)
      ensures calm ==> io.Done?
    {
      RunKeepsInv(origin, log);
      io := RemoveCandidate(j);
      if !io.Done? { return; }
      io := PersistTurned(j);
      if !io.Done? { return; }
      io := RecoverRollback(Turned(j));
    }

    /** `recover_rollback_journal`: copies the artifact if it is not installed yet. */
    method RecoverRollback(j: Journal) returns (io: Io)
      requires Journaled(j) && j.operation.Rollback?
      modifies this
      ensures Valid()
      ensures io.Done? ==> journal.None? && install == j.toRelease.sha && trust == Some(j.toRelease)
      ensures calm ==> io.Done?
    {
      RunKeepsInv(origin, log);
      var at := j;
      if install != j.toRelease.sha {
        io := CopyToInstall(at);
        if !io.Done? { return; }
        io := PersistPhase(at, Installed);
        if !io.Done? { return; }
        at := at.(phase := Installed);
      } else if j.phase.Intent? {
        io := PersistPhase(at, Installed);
        if !io.Done? { return; }
        at := at.(phase := Installed);
      }
      io := WriteTrust(at);
      if !io.Done? { return; }
      if at.phase.Installed? {
        io := PersistPhase(at, TrustCommitted);
        if !io.Done? { return; }
        at := at.(phase := TrustCommitted);
      }
      io := FinishJournal(at);
    }

    // ------------------------------------------------------------- recovery

    /** Retires whatever journal an earlier process left, and fails to exactly in the
        stuck states. */
    method Recover(checks: Checks) returns (outcome: Recovery)
      requires Valid()
      modifies this
      ensures Valid()
      ensures outcome.Clean? <==> old(journal).None?
      ensures outcome.Clean? ==> Snap() == old(Snap())
      ensures Stuck(old(Snap())) ==> outcome.Bailed? || outcome.Stopped?
      ensures outcome.Bailed? ==> Stuck(old(Snap())) && Stuck(Snap())
      ensures !outcome.Bailed? && !outcome.Stopped? ==> journal.None?
      ensures outcome.Completed? ==>
                var j := old(journal).value; install == j.toRelease.sha && trust == Some(j.toRelease)
      ensures outcome.Restored? ==>
                var j := old(journal).value; install == j.fromRelease.sha && trust == Some(j.fromRelease)
      ensures outcome.Discarded? || outcome.Rejected? ==>
                install == old(install) == old(journal).value.fromRelease.sha
                && trust == old(trust) && rollback == old(rollback)
      ensures calm ==> !outcome.Stopped? && (journal.None? <==> !Stuck(old(Snap())))
      ensures outcome.Completed? && old(journal).value.operation.Update? ==> checks.installed
      ensures calm && old(journal).Some? && !Stuck(old(Snap())) ==>
                var j := old(journal).value;
                if j.operation.Rollback? then outcome.Completed?
                else if old(install) != j.toRelease.sha && old(StagedGone(Snap(), j)) then outcome.Discarded?
                else if old(install) != j.toRelease.sha && !checks.staged then outcome.Rejected?
                else if checks.installed then outcome.Completed?
                else outcome.Restored?
    {
      if journal.None? { return Clean; }
      var j := journal.value;
      if j.operation.Rollback? {
        var io := RecoverRollback(j);
        return if io.Done? then Completed else Stopped;
      }
      RunKeepsInv(origin, log);
      if install == j.toRelease.sha {
        outcome := RecoverInstalled(j, checks.installed);
      } else {
        outcome := RecoverUninstalled(j, checks);
      }
    }

    /** The source is still installed: go on if the candidate is there, or give up. */
    method RecoverUninstalled(j: Journal, checks: Checks) returns (outcome: Recovery)
      requires Journaled(j) && j.operation.Update? && install != j.toRelease.sha
      modifies this
      ensures Valid() && !outcome.Clean?
      ensures outcome.Bailed? <==> CandidateLost(old(Snap()))
      ensures outcome.Bailed? ==> Snap() == old(Snap())
      ensures !outcome.Bailed? && !outcome.Stopped? ==> journal.None?
      ensures outcome.Completed? ==> install == j.toRelease.sha && trust == Some(j.toRelease)
      ensures outcome.Restored? ==> install == j.fromRelease.sha && trust == Some(j.fromRelease)
      ensures outcome.Discarded? || outcome.Rejected? ==>
                install == old(install) == j.fromRelease.sha && trust == old(trust) && rollback == old(rollback)
      ensures outcome.Completed? ==> checks.staged && checks.installed
      ensures calm && !outcome.Bailed? ==>
                if old(StagedGone(Snap(), j)) then outcome.Discarded?
                else if !checks.staged then outcome.Rejected?
                else if checks.installed then outcome.Completed?
                else outcome.Restored?
    {
      RunKeepsInv(origin, log);
      var io;
      if j.staged.Some? && j.staged.value in files {
        if !checks.staged {
          io := DiscardJournal(j);
          return if io.Done? then Rejected else Stopped;
        }
        io := PersistPhase(j, CandidateVerified);
        if !io.Done? { return Stopped; }
        var at := j.(phase := CandidateVerified);
        io := CopyToInstall(at);
        if !io.Done? { return Stopped; }
        io := PersistPhase(at, Installed);
        if !io.Done? { return Stopped; }
        outcome := RecoverInstalled(at.(phase := Installed), checks.installed);
      } else if j.phase.Intent? || j.phase.RollbackPrepared? {
        io := DiscardJournal(j);
        outcome := if io.Done? then Discarded else Stopped;
      } else {
        outcome := Bailed;
      }
    }

    /** The candidate is installed: commit it, or restore the source if it refuses the state. */
    method RecoverInstalled(j: Journal, accepted: bool) returns (outcome: Recovery)
      requires Journaled(j) && j.operation.Update? && install == j.toRelease.sha
      modifies this
      ensures Valid() && (outcome.Completed? || outcome.Restored? || outcome.Bailed? || outcome.Stopped?)
      ensures NothingSaved(old(Snap())) ==> outcome.Bailed? || outcome.Stopped?
      ensures outcome.Bailed? ==> NothingSaved(old(Snap())) && NothingSaved(Snap())
      ensures outcome.Completed? ==> journal.None? && install == j.toRelease.sha && trust == Some(j.toRelease)
      ensures outcome.Restored? ==> journal.None? && install == j.fromRelease.sha && trust == Some(j.fromRelease)
      ensures outcome.Completed? ==> accepted
      ensures calm && !outcome.Bailed? ==> if accepted then outcome.Completed? else outcome.Restored?
    {
      RunKeepsInv(origin, log);
      var io;
      var saved := j.artifact in files && files[j.artifact] == j.fromRelease.sha;
      if !accepted {
        if !saved { return Bailed; }
        io := RestoreRejected(j);
        return if io.Done? then Restored else Stopped;
      }
      var at := j;
      if Unstarted(j.phase) {
        io := PersistPhase(j, Installed);
        if !io.Done? { return Stopped; }
        at := j.(phase := Installed);
      }
      if !saved { return Bailed; }
      io := CommitUpdate(at);
      outcome := if io.Done? then Completed else Stopped;
    }

    // ------------------------------------------------------------- commands

    /** `enforce_controller_trust`; without a trust record the running binary is the floor. */
    predicate TrustAdmits(release: Trust, running: Version) reads this {
      match trust
      case Some(_) => TrustAllows(trust, release)
      case None => TrustAllows(Some(Trust(running, install)), release)
    }

    /** `self update` to a verified release. `running` is the version the executing binary
        was built as; `recovery` is what the recovery before it may meet. */
    method Update(release: Trust, running: Version, recovery: Checks, checks: Checks) returns (outcome: UpdateOutcome)
      requires Valid()
      modifies this
      ensures Valid()
      ensures Stuck(old(Snap())) ==> outcome == RecoveryEnded(Bailed) || outcome == RecoveryEnded(Stopped)
      ensures old(journal).None? ==>
                && !outcome.RecoveryEnded?
                && (outcome.TrustRefused? <==> TooOld(release, old(trust), running, old(install)))
      ensures outcome.TrustRefused? ==> journal.None? && TooOld(release, trust, running, install)
      ensures outcome.TrustRefused? && old(journal).None? ==> Snap() == old(Snap())
      ensures outcome.Updated? && old(trust).Some? && (old(journal).None? || old(journal).value.operation.Update?) ==>
                release.version >= old(trust).value.version
      ensures outcome.Updated? ==>
                && checks.staged && checks.installed
                && journal.None? && install == release.sha && trust == Some(release) && rollback.Some?
                && (old(journal).None? ==>
                      && rollback.value.sha == old(install)
                      && rollback.value.version == (if old(trust).Some? then old(trust).value.version else running))
      ensures outcome.CandidateRejected? && old(journal).None? ==>
                journal.None? && install == old(install) && trust == old(trust) && rollback == old(rollback)
      ensures outcome.CandidateRestored? && old(journal).None? ==>
                journal.None? && install == old(install) && trust.Some? && trust.value.sha == old(install)
      ensures calm ==> outcome != RecoveryEnded(Stopped)
      ensures calm && !outcome.RecoveryEnded? && !outcome.TrustRefused? ==> outcome == CheckedOutcome(checks)
    {
      RunKeepsInv(origin, log);
      var recovered := Recover(recovery);
      if !recovered.Clean? && !recovered.Completed? && !recovered.Discarded? { return RecoveryEnded(recovered); }
      outcome := UpdateFromRest(release, running, checks);
    }

    /** An older version than the trusted one, or other bytes for the same version. Without a
        trust record the running binary stands for it. */
    predicate TooOld(release: Trust, trust: Option<Trust>, running: Version, install: Digest) {
      var floor := if trust.Some? then trust.value else Trust(running, install);
      release.version < floor.version || (release.version == floor.version && release.sha != floor.sha)
    }

    function CheckedOutcome(checks: Checks): UpdateOutcome {
      if !checks.staged then CandidateRejected
      else if !checks.installed then CandidateRestored
      else Updated
    }

    method UpdateFromRest(release: Trust, running: Version, checks: Checks) returns (outcome: UpdateOutcome)
      requires Valid() && journal.None?
      modifies this
      ensures Valid() && !outcome.RecoveryEnded?
      ensures outcome.TrustRefused? <==> TooOld(release, old(trust), running, old(install))
      ensures outcome.TrustRefused? ==> Snap() == old(Snap())
      ensures outcome.Updated? ==>
                && checks.staged && checks.installed
                && journal.None? && install == release.sha && trust == Some(release) && rollback.Some?
                && rollback.value.sha == old(install)
                && rollback.value.version == (if old(trust).Some? then old(trust).value.version else running)
      ensures outcome.CandidateRejected? ==>
                journal.None? && install == old(install) && trust == old(trust) && rollback == old(rollback)
      ensures outcome.CandidateRestored? ==>
                journal.None? && install == old(install) && trust.Some? && trust.value.sha == old(install)
      ensures calm && !outcome.TrustRefused? ==> outcome == CheckedOutcome(checks)
    {
      if !TrustAdmits(release, running) { return TrustRefused; }
      var version := if trust.Some? then trust.value.version else running;
      var j := UpdateJournal(Trust(version, install), release);
      var io := BeginJournal(j);
      if !io.Done? { return UpdateStopped; }
      outcome := ExecuteUpdate(j, checks);
    }

    method ExecuteUpdate(j: Journal, checks: Checks) returns (outcome: UpdateOutcome)
      requires Journaled(j) && j == UpdateJournal(j.fromRelease, j.toRelease) && install == j.fromRelease.sha
      modifies this
      ensures Valid()
      ensures outcome.Updated? || outcome.CandidateRejected? || outcome.CandidateRestored? || outcome.UpdateStopped?
      ensures outcome.Updated? ==>
                && journal.None? && install == j.toRelease.sha && trust == Some(j.toRelease)
                && rollback == Some(RollbackState(j.fromRelease.version, j.fromRelease.sha, j.artifact))
      ensures outcome.CandidateRejected? ==>
                journal.None? && install == old(install) && trust == old(trust) && rollback == old(rollback)
      ensures outcome.CandidateRestored? ==>
                journal.None? && install == old(install) && trust == Some(j.fromRelease)
      ensures outcome.Updated? ==> checks.staged && checks.installed
      ensures calm ==> outcome == CheckedOutcome(checks)
    {
      var at, io := PrepareFiles(j);
      if !io.Done? { return UpdateStopped; }
      if !checks.staged {
        io := DiscardJournal(at);
        return if io.Done? then CandidateRejected else UpdateStopped;
      }
      io := PersistPhase(at, CandidateVerified);
      if !io.Done? { return UpdateStopped; }
      at := at.(phase := CandidateVerified);
      io := CopyToInstall(at);
      if !io.Done? { return UpdateStopped; }
      io := PersistPhase(at, Installed);
      if !io.Done? { return UpdateStopped; }
      at := at.(phase := Installed);
      if !checks.installed {
        io := RestoreRejected(at);
        return if io.Done? then CandidateRestored else UpdateStopped;
      }
      io := CommitUpdate(at);
      outcome := if io.Done? then Updated else UpdateStopped;
    }

    /** Saves the running binary, then stages the candidate. */
    method PrepareFiles(j: Journal) returns (at: Journal, io: Io)
      requires Journaled(j) && j == UpdateJournal(j.fromRelease, j.toRelease) && install == j.fromRelease.sha
      modifies `files, `journal, `log
      ensures Valid() && journal == Some(at) && at == j.(phase := at.phase)
      ensures io.Done? ==>
                && at.phase.CandidatePrepared? && !StagedGone(Snap(), at)
                && FileAt(Snap(), at.artifact) == Some(at.fromRelease.sha)
      ensures calm ==> io.Done?
    {
      at := j;
      io := CopyToArtifact(at);
      if !io.Done? { return; }
      io := PersistPhase(at, RollbackPrepared);
      if !io.Done? { return; }
      at := at.(phase := RollbackPrepared);
      io := CopyToStaged(at, at.staged.value);
      if !io.Done? { return; }
      io := PersistPhase(at, CandidatePrepared);
      if !io.Done? { return; }
      at := at.(phase := CandidatePrepared);
    }

    /** `self rollback`. Available after every committed update, from any later state at rest. */
    method SelfRollback(running: Version, recovery: Checks) returns (outcome: RollbackOutcome)
      requires Valid()
      modifies this
      ensures Valid() && !outcome.ArtifactChanged?
      ensures Stuck(old(Snap())) ==>
                outcome == RollbackRecoveryEnded(Bailed) || outcome == RollbackRecoveryEnded(Stopped)
      ensures outcome.Unavailable? ==> rollback.None? && journal.None?
      ensures outcome.Unavailable? && old(journal).None? ==> old(rollback).None? && Snap() == old(Snap())
      ensures calm && old(journal).None? ==> if old(rollback).Some? then outcome.RolledBack? else outcome.Unavailable?
      ensures outcome.RolledBack? && old(journal).None? ==>
                && old(rollback).Some? && journal.None?
                && install == old(rollback).value.sha && rollback == old(rollback)
                && trust == Some(Trust(old(rollback).value.version, old(rollback).value.sha))
      ensures calm ==> !outcome.RollbackStopped? && outcome != RollbackRecoveryEnded(Stopped)
    {
      var recovered := Recover(recovery);
      if !recovered.Clean? && !recovered.Completed? && !recovered.Discarded? {
        return RollbackRecoveryEnded(recovered);
      }
      if rollback.None? { return Unavailable; }
      AtRest(origin, log);
      var state := rollback.value;
      if state.artifact !in files || files[state.artifact] != state.sha { return ArtifactChanged; }
      var version := if trust.Some? then trust.value.version else running;
      var j := RollbackJournal(Trust(version, install), state);
      var io := BeginJournal(j);
      if !io.Done? { return RollbackStopped; }
      io := ExecuteRollback(j);
      outcome := if io.Done? then RolledBack else RollbackStopped;
    }

    method ExecuteRollback(j: Journal) returns (io: Io)
      requires Journaled(j) && j.operation.Rollback? && j.phase.Intent?
      requires FileAt(Snap(), j.artifact) == Some(j.toRelease.sha)
      modifies `install, `trust, `files, `journal, `log
      ensures Valid()
      ensures io.Done? ==> journal.None? && install == j.toRelease.sha && trust == Some(j.toRelease)
      ensures calm ==> io.Done?
    {
      io := CopyToInstall(j);
      if !io.Done? { return; }
      io := PersistPhase(j, Installed);
      if !io.Done? { return; }
      var at := j.(phase := Installed);
      io := WriteTrust(at);
      if !io.Done? { return; }
      io := PersistPhase(at, TrustCommitted);
      if !io.Done? { return; }
      io := FinishJournal(at.(phase := TrustCommitted));
    }
  }
}
