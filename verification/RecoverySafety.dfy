/** What every run of the recovery choreography keeps, and how the two journals can come to
    disagree. */
module RecoverySafety {
  import opened Prelude
  import opened RecoveryModel
  import Runs

  ghost function DiskAfter(log: seq<Step>): Disk { Runs.After(MACHINE, log) }
  ghost predicate IsRun(log: seq<Step>) { Runs.IsRun(MACHINE, log) }

  /** Every activation ever sent followed a successful invalidation of its plan's epoch and
      was sent after the deadline that invalidation set. */
  lemma {:induction false} ActivationsAreGated(log: seq<Step>, a: Activation)
    requires IsRun(log) && a in DiskAfter(log).activations
    ensures (a.epoch, a.notBefore) in DiskAfter(log).succeeded && a.notBefore < a.sentAt
  {
    RunKeepsInv(log);
  }

  /** When an activation is sent, the success it relies on is already in the stored plan. */
  lemma {:induction false} DeadlineIsDurable(log: seq<Step>, now: int)
    requires IsRun(log) && Enabled(DiskAfter(log), SendActivate(now))
    ensures var d := DiskAfter(log);
            var p := d.plan.value;
            && p.notBefore.Some? && (p.epoch, p.notBefore.value) in d.succeeded && p.notBefore.value < now
            && p.invalidationId.Some? && p.activateId.Some?
  {
    RunKeepsInv(log);
  }

  /** Nothing, not even a change of version, moves a plan to another epoch, recovery or
      snapshot, or takes back that the snapshot was restored. */
  lemma {:induction false} EpochIsFixed(log: seq<Step>, s: Step)
    requires IsRun(log) && Enabled(DiskAfter(log), s)
    requires DiskAfter(log).plan.Some? && Apply(DiskAfter(log), s).plan.Some?
    ensures var p, q := DiskAfter(log).plan.value, Apply(DiskAfter(log), s).plan.value;
            && q.epoch == p.epoch && q.recoverId == p.recoverId && q.deployment == p.deployment
            && q.sourceRevision == p.sourceRevision && q.manifest == p.manifest
            && (p.restored.Some? ==> q.restored == p.restored)
  {
    RunKeepsInv(log);
  }

  lemma {:induction false} StoredPlansLoad(log: seq<Step>)
    requires IsRun(log) && DiskAfter(log).plan.Some?
    ensures var p := DiskAfter(log).plan.value;
            && ValidPlan(p) && p.deployment != "" && |p.manifest| == 64
            && (p.phase.Restoring? <==> p.candidate.None?)
            && (p.candidate.Some? ==>
                  && p.restored == Some(p.sourceRevision + 1) && p.stageId.Some?
                  && p.candidate.value.reference != "" && p.candidate.value.objectId != ""
                  && p.candidate.value.port != 0)
            && (p.phase.WaitingForDeadline? || p.phase.CleanupPending? ==>
                  p.invalidationId.Some? && p.invalidationHash.Some? && p.notBefore.Some?)
  {
    RunKeepsInv(log);
  }

  /** A wrapper id is only ever sent with one signed operation to one candidate. */
  lemma {:induction false} WrapperNamesOneOperation(log: seq<Step>, v: Wrapped, w: Wrapped)
    requires IsRun(log) && v in DiskAfter(log).sent && w in DiskAfter(log).sent && v.wrapper == w.wrapper
    ensures v == w
  {
    RunKeepsInv(log);
  }

  // ---------------------------------------------------- the two journals agree

  /** Signing creates a disagreement exactly when the plan is still bound, which takes a slot
      that was occupied at the first look and empty at the second. */
  lemma {:induction false} DisagreementBegins(log: seq<Step>, s: Step)
    requires IsRun(log) && Enabled(DiskAfter(log), s) && !Mismatch(DiskAfter(log))
    ensures var d := DiskAfter(log);
            && (Mismatch(Apply(d, s)) <==> s.Record? && d.plan.value.invalidationId.Some?)
            && (Mismatch(Apply(d, s)) ==> d.observed.SawEntry? && d.slot.None?)
  {
    RunKeepsInv(log);
  }

  /** Only asking for another version ends it: until then every rerun bails. */
  lemma {:induction false} DisagreementStays(log: seq<Step>, s: Step)
    requires IsRun(log) && Enabled(DiskAfter(log), s) && Mismatch(DiskAfter(log))
    ensures Mismatch(Apply(DiskAfter(log), s)) || (s.Store? && s.change.StartOver?)
  {
    RunKeepsInv(log);
  }

  /** The journals agree whenever no other command gives up the slot. */
  lemma {:induction false} AgreeWithoutOthers(log: seq<Step>)
    requires IsRun(log) && OtherClears !in log
    ensures !Mismatch(DiskAfter(log))
    ensures DiskAfter(log).observed.SawEntry? ==> DiskAfter(log).slot.Some?
  {
    if log != [] {
      var init := log[..|log| - 1];
      AgreeWithoutOthers(init);
      DisagreementBegins(init, log[|log| - 1]);
      SeenEntryStays(DiskAfter(init), log[|log| - 1]);
    }
  }

  lemma SeenEntryStays(d: Disk, s: Step)
    requires Enabled(d, s) && !s.OtherClears? && (d.observed.SawEntry? ==> d.slot.Some?)
    ensures Apply(d, s).observed.SawEntry? ==> Apply(d, s).slot.Some?
  {
  }

  const MANIFEST: string := "0000000000000000000000000000000000000000000000000000000000000000"
  const CANDIDATE := Candidate("oci://candidate", "object", 8443, true)
  const STAGED := NewPlan("deployment", 4, MANIFEST, 0).(
    phase := Invalidating, restored := Some(5), stageId := Some(3), candidate := Some(CANDIDATE))
  const SIGNED := Entry(5, Invalidate(0, 0))

  lemma StagedHappens() returns (log: seq<Step>)
    ensures IsRun(log) && OtherClears !in log
    ensures DiskAfter(log) == FRESH.(plan := Some(STAGED), nextId := 5)
  {
    var p := NewPlan("deployment", 4, MANIFEST, 0);
    var restored := p.(restored := Some(5));
    var script := [
      (Open("deployment", 4, MANIFEST), FRESH.(plan := Some(p), nextId := 2)),
      (Store(RecordRestored), FRESH.(plan := Some(restored), nextId := 3)),
      (Store(NeedStageId), FRESH.(plan := Some(restored.(stageId := Some(3))), nextId := 4)),
      (Store(RecordCandidate(CANDIDATE)), FRESH.(plan := Some(STAGED), nextId := 5))];
    forall i | 0 <= i < |script| ensures Runs.PlaysAt(MACHINE, FRESH, script, i) {
    }
    Runs.Play(MACHINE, [], script);
    log := [] + Runs.StepsOf(script);
  }

  /** The invalidation is signed, bound, sent and answered. */
  lemma HeardHappens(result: Option<int>) returns (log: seq<Step>)
    ensures IsRun(log)
    ensures DiskAfter(log) == HeardDisk(result)
  {
    log := StagedHappens();
    var d := FRESH.(plan := Some(STAGED), nextId := 5);
    var signed := d.(observed := SawEmpty, slot := Some(SIGNED), nextId := 6);
    var bound := BoundTo(STAGED, SIGNED);
    var ready := signed.(plan := Some(bound.(wrapperId := Some(7))), nextId := 8);
    var sent := ready.(sent := {} + {Wrapped(7, 5, CANDIDATE)});
    var script := [
      (Look, d.(observed := SawEmpty)),
      (Record(0), signed),
      (Store(Bind), signed.(plan := Some(bound), nextId := 7)),
      (Store(NeedWrapperId), ready),
      (SendControl, sent),
      (Answered(result), HeardDisk(result))];
    forall i | 0 <= i < |script| ensures Runs.PlaysAt(MACHINE, d, script, i) {
    }
    Runs.Play(MACHINE, log, script);
    log := log + Runs.StepsOf(script);
  }

  function HeardDisk(result: Option<int>): Disk {
    FRESH.(plan := Some(BoundTo(STAGED, SIGNED).(wrapperId := Some(7))), slot := Some(SIGNED), nextId := 8,
           observed := Heard, answered := {} + {5},
           succeeded := if result.Some? then {} + {(0, result.value)} else {},
           sent := {} + {Wrapped(7, 5, CANDIDATE)})
  }

  /** The target refuses the key, the process settles and dies before it unbinds the plan;
      another command uses the slot and is done with it between the two looks. */
  lemma DisagreementHappens() returns (log: seq<Step>)
    ensures IsRun(log) && Mismatch(DiskAfter(log))
  {
    log := HeardHappens(None);
    var d := HeardDisk(None);
    var other := Entry(8, Other(0));
    var settled := d.(slot := None, observed := NotLooked);
    var seen := settled.(slot := Some(other), observed := SawEntry, nextId := 9);
    var script := [
      (Settle, d.(slot := None)),
      (Crash, settled),
      (OtherRecords(0), settled.(slot := Some(other), nextId := 9)),
      (Look, seen),
      (OtherClears, seen.(slot := None)),
      (Record(0), seen.(slot := Some(Entry(9, Invalidate(0, 0))), nextId := 10))];
    forall i | 0 <= i < |script| ensures Runs.PlaysAt(MACHINE, d, script, i) {
    }
    Runs.Play(MACHINE, log, script);
    log := log + Runs.StepsOf(script);
  }

  // ------------------------------------------------------- a slot left behind

  /** An invalidation of an epoch no plan has any more. */
  predicate LeftBehind(d: Disk) {
    && d.slot.Some? && d.slot.value.content.Invalidate?
    && (d.plan.Some? ==> d.plan.value.epoch != d.slot.value.content.epoch)
  }

  /** The stored answer's operation still is in the slot, and the process that heard the
      answer, the only one that could settle it, is gone. */
  predicate Doomed(d: Disk) {
    && d.plan.Some? && Waited(d.plan.value) && HoldsInvalidation(d, d.plan.value)
    && !d.observed.Heard?
  }

  /** A recovery is doomed to leave the slot occupied exactly when its process dies after it
      stored the deadline and before it settled. */
  lemma {:induction false} DoomBegins(log: seq<Step>, s: Step)
    requires IsRun(log) && Enabled(DiskAfter(log), s) && !Doomed(DiskAfter(log))
    ensures var d := DiskAfter(log);
            Doomed(Apply(d, s)) <==> s.Crash? && d.plan.Some? && MustSettle(d, d.plan.value)
  {
    RunKeepsInv(log);
  }

  /** Only a request for another version saves it; finishing it leaves the slot behind. */
  lemma {:induction false} DoomStays(log: seq<Step>, s: Step)
    requires IsRun(log) && Enabled(DiskAfter(log), s) && Doomed(DiskAfter(log))
    ensures var d' := Apply(DiskAfter(log), s);
            || Doomed(d')
            || (s.Store? && s.change.StartOver?)
            || (s.Forget? && LeftBehind(d') && d'.slot == DiskAfter(log).slot)
  {
    RunKeepsInv(log);
  }

  /** A slot is left behind by the end of a doomed recovery and in no other way. */
  lemma {:induction false} LeftBehindBegins(log: seq<Step>, s: Step)
    requires IsRun(log) && Enabled(DiskAfter(log), s) && !LeftBehind(DiskAfter(log))
    ensures LeftBehind(Apply(DiskAfter(log), s)) <==> s.Forget? && Doomed(DiskAfter(log))
  {
    RunKeepsInv(log);
  }

  /** So a run in which no process dies at that point never leaves a slot behind. */
  lemma {:induction false} NothingLeftBehind(log: seq<Step>)
    requires IsRun(log)
    requires forall k | 0 <= k < |log| && log[k].Crash? ::
               var d := DiskAfter(log[..k]); d.plan.None? || !MustSettle(d, d.plan.value)
    ensures !LeftBehind(DiskAfter(log)) && !Doomed(DiskAfter(log))
  {
    if log != [] {
      var init := log[..|log| - 1];
      forall k | 0 <= k < |init| && init[k].Crash?
        ensures var d := DiskAfter(init[..k]); d.plan.None? || !MustSettle(d, d.plan.value)
      {
        assert init[..k] == log[..k] && init[k] == log[k];
      }
      NothingLeftBehind(init);
      assert init == log[..|init|];
      DoomBegins(init, log[|log| - 1]);
      LeftBehindBegins(init, log[|log| - 1]);
    }
  }

  /** Nothing ever empties it again, so every other operation of the instance is refused. */
  lemma {:induction false} LeftBehindStays(log: seq<Step>, s: Step)
    requires IsRun(log) && Enabled(DiskAfter(log), s) && LeftBehind(DiskAfter(log))
    ensures LeftBehind(Apply(DiskAfter(log), s)) && Apply(DiskAfter(log), s).slot == DiskAfter(log).slot
  {
    RunKeepsInv(log);
  }

  const WAITING := HeardDisk(Some(100)).plan.value.(notBefore := Some(100), phase := WaitingForDeadline)
  const WAITING_DISK := HeardDisk(Some(100)).(plan := Some(WAITING), observed := NotLooked, nextId := 9)
  const ARMED := WAITING.(activateId := Some(9))
  const ARMED_DISK := WAITING_DISK.(plan := Some(ARMED), nextId := 10, activations := {} + {Activation(0, 100, 101)})

  lemma DiesBeforeSettling() returns (log: seq<Step>)
    ensures IsRun(log) && DiskAfter(log) == ARMED_DISK
  {
    log := HeardHappens(Some(100));
    var d := HeardDisk(Some(100));
    var script := [
      (Store(RecordDeadline(100)), WAITING_DISK.(observed := Heard)),
      (Crash, WAITING_DISK),
      (Store(NeedActivateId), WAITING_DISK.(plan := Some(ARMED), nextId := 10)),
      (SendActivate(101), ARMED_DISK)];
    forall i | 0 <= i < |script| ensures Runs.PlaysAt(MACHINE, d, script, i) {
    }
    Runs.Play(MACHINE, log, script);
    log := log + Runs.StepsOf(script);
  }

  /** A process that dies between storing the deadline and settling the operation does this. */
  lemma SlotIsLeftBehind() returns (log: seq<Step>)
    ensures IsRun(log) && LeftBehind(DiskAfter(log)) && DiskAfter(log).plan.None?
  {
    log := DiesBeforeSettling();
    var activated := ARMED.(phase := CleanupPending);
    var script := [
      (Store(RecordActivated), ARMED_DISK.(plan := Some(activated), nextId := 11)),
      (Store(NeedCleanupId), ARMED_DISK.(plan := Some(activated.(cleanupId := Some(11))), nextId := 12)),
      (Forget, ARMED_DISK.(plan := None, nextId := 12))];
    forall i | 0 <= i < |script| ensures Runs.PlaysAt(MACHINE, ARMED_DISK, script, i) {
    }
    Runs.Play(MACHINE, log, script);
    log := log + Runs.StepsOf(script);
  }
}
