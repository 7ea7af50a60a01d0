/** What every run of self update, self rollback and their recovery keeps. */
module SelfUpdateSafety {
  import opened Prelude
  import opened SelfUpdateModel
  import Runs

  /** While a journal exists the installed binary is its source or its target, and an
      update that has replaced the source has the source's bytes on disk. */
  lemma {:induction false} WayBackExists(origin: Digest, log: seq<Step>)
    requires Runs.IsRun(MACHINE(origin), log)
    requires Runs.After(MACHINE(origin), log).journal.Some?
    ensures var d := Runs.After(MACHINE(origin), log);
            var j := d.journal.value;
            && (d.install == j.fromRelease.sha || d.install == j.toRelease.sha)
            && (d.install != j.fromRelease.sha && j.operation.Update? ==>
                  FileAt(d, j.artifact) == Some(j.fromRelease.sha))
            && (j.operation.Rollback? ==> FileAt(d, j.artifact) == Some(j.toRelease.sha))
  {
    RunKeepsInv(origin, log);
  }

  /** At rest the trusted digest is the installed one, `self rollback` has the bytes it
      needs, and no candidate is left lying about. */
  lemma {:induction false} AtRest(origin: Digest, log: seq<Step>)
    requires Runs.IsRun(MACHINE(origin), log)
    ensures var d := Runs.After(MACHINE(origin), log);
            && (d.rollback.Some? ==> FileAt(d, d.rollback.value.artifact) == Some(d.rollback.value.sha))
            && (d.journal.None? ==>
                  && (if d.trust.Some? then d.install == d.trust.value.sha else d.install == origin)
                  && forall sha :: Candidate(sha) !in d.files)
  {
    RunKeepsInv(origin, log);
  }

  /** Only a rollback, asked for or automatic, lowers the trusted version, and only a
      rollback changes the bytes trusted under one version. */
  lemma {:induction false} TrustFloor(origin: Digest, log: seq<Step>, s: Step)
    requires Runs.IsRun(MACHINE(origin), log) && Enabled(Runs.After(MACHINE(origin), log), s)
    ensures var d := Runs.After(MACHINE(origin), log);
            var d' := Apply(d, s);
            d.trust.Some? && (d.journal.None? || d.journal.value.operation.Update?) ==>
              && d'.trust.Some? && d'.trust.value.version >= d.trust.value.version
              && (d'.trust.value.version == d.trust.value.version ==> d'.trust.value.sha == d.trust.value.sha)
  {
    RunKeepsInv(origin, log);
  }

  /** A journal is retired by a commit of its target, or discarded. */
  lemma {:induction false} Retirement(origin: Digest, log: seq<Step>, s: Step)
    requires Runs.IsRun(MACHINE(origin), log) && Enabled(Runs.After(MACHINE(origin), log), s)
    requires Runs.After(MACHINE(origin), log).journal.Some?
    requires Apply(Runs.After(MACHINE(origin), log), s).journal.None?
    ensures var d := Runs.After(MACHINE(origin), log);
            var j := d.journal.value;
            && (s.Finish? ==> d.trust == Some(j.toRelease) && d.install == j.toRelease.sha)
            && (!s.Finish? ==> s.Discard? && j.operation.Update? && d.install == j.fromRelease.sha)
  {
    RunKeepsInv(origin, log);
  }

  predicate Ends(s: Step) { s.Begin? || s.Finish? || s.Discard? || s.TurnAround? }

  predicate StillUnstarted(before: Disk, d: Disk, j: Journal) {
    && d.journal.Some? && d.journal.value.(phase := Intent) == j
    && (Unstarted(d.journal.value.phase) ==>
          && d.trust == before.trust && d.rollback == before.rollback
          && (d.install == before.install || d.install == j.toRelease.sha))
  }

  lemma {:induction false} UnstartedChangesLittle(origin: Digest, log: seq<Step>, j: Journal, more: seq<Step>)
    requires j.operation.Update?
    requires Runs.IsRun(MACHINE(origin), log + [Begin(j)] + more)
    requires forall i :: 0 <= i < |more| ==> !Ends(more[i])
    ensures Runs.IsRun(MACHINE(origin), log)
    ensures StillUnstarted(Runs.After(MACHINE(origin), log),
                           Runs.After(MACHINE(origin), log + [Begin(j)] + more), j)
  {
    var whole := log + [Begin(j)] + more;
    if more == [] {
      assert whole == log + [Begin(j)];
      assert whole[..|whole| - 1] == log;
    } else {
      var init := more[..|more| - 1];
      assert whole[..|whole| - 1] == log + [Begin(j)] + init;
      UnstartedChangesLittle(origin, log, j, init);
    }
  }

  /** Discarding an update leaves the installed binary, the trust record and the rollback
      record exactly as they were before the update began. */
  lemma {:induction false} DiscardUndoes(origin: Digest, log: seq<Step>, j: Journal, more: seq<Step>)
    requires j.operation.Update?
    requires Runs.IsRun(MACHINE(origin), log + [Begin(j)] + more)
    requires forall i :: 0 <= i < |more| ==> !Ends(more[i])
    requires Enabled(Runs.After(MACHINE(origin), log + [Begin(j)] + more), Discard)
    ensures var before := Runs.After(MACHINE(origin), log);
            var d := Apply(Runs.After(MACHINE(origin), log + [Begin(j)] + more), Discard);
            d == before.(files := d.files)
  {
    UnstartedChangesLittle(origin, log, j, more);
    var upTo := log + [Begin(j)];
    Runs.Prefix(MACHINE(origin), upTo, more);
    assert upTo[..|upTo| - 1] == log;
  }

  // --------------------------------------------------------------- progress

  /** Discard removed the candidate but not the journal, which says there is one. */
  predicate CandidateLost(d: Disk) {
    d.journal.Some? &&
    var j := d.journal.value;
    && j.operation.Update? && d.install != j.toRelease.sha && StagedGone(d, j)
    && (j.phase.CandidatePrepared? || j.phase.CandidateVerified?)
  }

  /** The update installs the bytes that already run, and they were never saved. */
  predicate NothingSaved(d: Disk) {
    d.journal.Some? &&
    var j := d.journal.value;
    j.operation.Update? && j.fromRelease.sha == j.toRelease.sha && j.artifact !in d.files
  }

  /** The states from which recovery cannot retire the journal. */
  predicate Stuck(d: Disk) { CandidateLost(d) || NothingSaved(d) }

  /** A run gets stuck only at two writes: the removal of a candidate by discard, and the
      first journal of an update to the bytes already installed. */
  lemma {:induction false} StuckEntry(origin: Digest, log: seq<Step>, s: Step)
    requires Runs.IsRun(MACHINE(origin), log) && Enabled(Runs.After(MACHINE(origin), log), s)
    requires var d := Runs.After(MACHINE(origin), log); !Stuck(d) && Stuck(Apply(d, s))
    ensures var d := Runs.After(MACHINE(origin), log);
            || (s.RemoveStaged? && CandidateLost(Apply(d, s))
                && d.journal.value.fromRelease.sha != d.journal.value.toRelease.sha)
            || (s.Begin? && s.journal.toRelease.sha == d.install && RollbackCopy(d.install) !in d.files)
  {
    RunKeepsInv(origin, log);
  }

  const OLD := Trust(1, 10)
  const NEW := Trust(2, 20)

  /** A candidate that fails its check, and a process that dies between the two removals. */
  lemma CandidateCanBeLost() returns (log: seq<Step>)
    ensures Runs.IsRun(MACHINE(OLD.sha), log) && CandidateLost(Runs.After(MACHINE(OLD.sha), log))
    ensures Runs.After(MACHINE(OLD.sha), log).install == OLD.sha
  {
    var j := UpdateJournal(OLD, NEW);
    var d := Fresh(OLD.sha);
    var saved: map<Path, Digest> := map[RollbackCopy(10) := 10];
    var staged := saved[Candidate(20) := 20];
    var script := [
      (Begin(j), d.(journal := Some(j))),
      (SaveArtifact, d.(journal := Some(j), files := saved)),
      (Advance(RollbackPrepared), d.(journal := Some(j.(phase := RollbackPrepared)), files := saved)),
      (SaveCandidate, d.(journal := Some(j.(phase := RollbackPrepared)), files := staged)),
      (Advance(CandidatePrepared), d.(journal := Some(j.(phase := CandidatePrepared)), files := staged)),
      (RemoveStaged, d.(journal := Some(j.(phase := CandidatePrepared)), files := staged - {Candidate(20)}))];
    forall i | 0 <= i < |script| ensures Runs.PlaysAt(MACHINE(OLD.sha), d, script, i) {
    }
    Runs.Play(MACHINE(OLD.sha), [], script);
    log := [] + Runs.StepsOf(script);
  }

  /** An update to the running release that dies after its first write. */
  lemma NothingCanBeSaved() returns (log: seq<Step>)
    ensures Runs.IsRun(MACHINE(OLD.sha), log) && NothingSaved(Runs.After(MACHINE(OLD.sha), log))
  {
    var j := UpdateJournal(OLD, OLD);
    Runs.Extend(MACHINE(OLD.sha), [], Begin(j));
    log := [] + [Begin(j)];
  }
}
