/** Disaster recovery: the recovery plan, the control-operation slot it must agree with, and
    every durable write to either, by the one recovery process and by other commands. */
module RecoveryModel {
  import opened Prelude
  import Runs

  type Id = nat

  /** What a control operation asks for; other commands ask for other things. */
  datatype Content = Invalidate(epoch: Id, config: nat) | Other(what: nat)

  datatype Entry = Entry(id: Id, content: Content)

  /** An injective request hash; the canonical bytes include the operation id. */
  datatype Hash = Sha256(entry: Entry)

  datatype Candidate = Candidate(reference: string, objectId: string, port: nat, https: bool)

  datatype Phase = Restoring | Invalidating | WaitingForDeadline | CleanupPending

  datatype Plan = Plan(
    deployment: string, phase: Phase, sourceRevision: nat, restored: Option<nat>, manifest: string,
    version: Option<string>, epoch: Id, recoverId: Id, stageId: Option<Id>, candidate: Option<Candidate>,
    invalidationId: Option<Id>, invalidationHash: Option<Hash>, wrapperId: Option<Id>,
    notBefore: Option<int>, activateId: Option<Id>, cleanupId: Option<Id>)

  function NewPlan(deployment: string, sourceRevision: nat, manifest: string, id: Id): Plan {
    Plan(deployment, Restoring, sourceRevision, None, manifest, None, id, id + 1,
         None, None, None, None, None, None, None, None)
  }

  predicate ValidCandidate(c: Candidate) { c.reference != "" && c.objectId != "" && c.port != 0 }

  /** `validate` of recovery_journal.rs, without its UUID and hash formats. */
  predicate ValidPlan(p: Plan) {
    && p.deployment != "" && |p.manifest| == 64
    && (p.candidate.Some? ==> ValidCandidate(p.candidate.value))
    && (!p.phase.Restoring? ==> p.restored.Some? && p.stageId.Some? && p.candidate.Some?)
    && (p.phase.WaitingForDeadline? || p.phase.CleanupPending? ==>
          p.invalidationId.Some? && p.invalidationHash.Some? && p.notBefore.Some?)
  }

  function Unbound(p: Plan): Plan {
    p.(invalidationId := None, invalidationHash := None, wrapperId := None)
  }

  function BoundTo(p: Plan, e: Entry): Plan {
    p.(invalidationId := Some(e.id), invalidationHash := Some(Sha256(e)))
  }

  /** A new target version starts over from the restored state, under the same epoch. */
  function Reset(p: Plan, version: string): Plan {
    Unbound(p).(phase := Restoring, version := Some(version), stageId := None, candidate := None,
                notBefore := None, activateId := None, cleanupId := None)
  }

  /** What the recovery process knows since it last looked at the slot. */
  datatype Observation = NotLooked | SawEmpty | SawEntry | Heard

  /** One wrapper operation as sent: its id, the signed operation in it, and the candidate. */
  datatype Wrapped = Wrapped(wrapper: Id, operation: Id, candidate: Candidate)

  datatype Activation = Activation(epoch: Id, notBefore: int, sentAt: int)

  datatype Disk = Disk(
    plan: Option<Plan>, slot: Option<Entry>, nextId: Id,
    observed: Observation, answered: set<Id>, succeeded: set<(Id, int)>,
    sent: set<Wrapped>, activations: set<Activation>)

  // ----------------------------------------------------------------- steps

  datatype Change =
    | NeedCleanupId
    | StartOver(version: string)
    | RecordRestored
    | NeedStageId
    | RecordCandidate(candidate: Candidate)
    | Unbind
    | Bind
    | NeedWrapperId
    | RecordDeadline(notBefore: int)
    | NeedActivateId
    | RecordActivated

  datatype Step =
    | Open(deployment: string, sourceRevision: nat, manifest: string)
    | Store(change: Change)
    | Forget
    | Look
    | Record(config: nat)
    | SendControl
    | Answered(result: Option<int>)
    | Settle
    | SendActivate(now: int)
    | OtherRecords(what: nat)
    | OtherClears
    | Crash

  /** The slot holds this plan's invalidation. */
  predicate HoldsInvalidation(d: Disk, p: Plan) {
    d.slot.Some? && d.slot.value.content.Invalidate? && d.slot.value.content.epoch == p.epoch
  }

  predicate Bound(d: Disk, p: Plan) {
    && d.slot.Some? && p.invalidationId == Some(d.slot.value.id)
    && p.invalidationHash == Some(Sha256(d.slot.value))
  }

  /** The target's answer was stored, so what is left is to wait and to activate. */
  predicate Waited(p: Plan) { p.phase.WaitingForDeadline? || p.phase.CleanupPending? }

  /** The process that stored the answer has not settled it, and goes no further before it has. */
  predicate MustSettle(d: Disk, p: Plan) { d.observed.Heard? && Waited(p) && HoldsInvalidation(d, p) }

  predicate ChangeEnabled(d: Disk, p: Plan, c: Change) {
    match c
    case NeedCleanupId => p.candidate.Some? && p.cleanupId.None? && !MustSettle(d, p)
    case StartOver(version) =>
      p.version != Some(version) && d.observed.NotLooked? && (p.candidate.Some? ==> p.cleanupId.Some?)
    case RecordRestored => p.phase.Restoring? && p.restored.None?
    case NeedStageId => p.candidate.None? && p.restored.Some? && p.stageId.None?
    case RecordCandidate(candidate) =>
      p.candidate.None? && p.restored.Some? && p.stageId.Some? && ValidCandidate(candidate)
    case Unbind =>
      && p.phase.Invalidating?
      && (|| (d.observed.SawEmpty? && !HoldsInvalidation(d, p))
          || d.observed.Heard?)
    case Bind => p.phase.Invalidating? && HoldsInvalidation(d, p) && p.invalidationId.None? && p.invalidationHash.None?
    case NeedWrapperId => p.phase.Invalidating? && Bound(d, p) && p.wrapperId.None?
    case RecordDeadline(notBefore) =>
      p.phase.Invalidating? && d.observed.Heard? && Bound(d, p) && (p.epoch, notBefore) in d.succeeded
    case NeedActivateId => p.phase.WaitingForDeadline? && p.activateId.None? && !MustSettle(d, p)
    case RecordActivated => p.phase.WaitingForDeadline? && p.activateId.Some? && !MustSettle(d, p)
  }

  function Changed(p: Plan, c: Change, slot: Option<Entry>, id: Id): Plan {
    match c
    case NeedCleanupId => p.(cleanupId := Some(id))
    case StartOver(version) => Reset(p, version)
    case RecordRestored => p.(restored := Some(p.sourceRevision + 1))
    case NeedStageId => p.(stageId := Some(id))
    case RecordCandidate(candidate) => p.(candidate := Some(candidate), phase := Invalidating)
    case Unbind => Unbound(p)
    case Bind => if slot.Some? then BoundTo(p, slot.value) else p
    case NeedWrapperId => p.(wrapperId := Some(id))
    case RecordDeadline(notBefore) => p.(notBefore := Some(notBefore), phase := WaitingForDeadline)
    case NeedActivateId => p.(activateId := Some(id))
    case RecordActivated => p.(phase := CleanupPending)
  }

  predicate Enabled(d: Disk, s: Step) {
    match s
    case Crash => true
    case OtherRecords(_) => d.slot.None?
    case OtherClears => d.slot.Some? && d.slot.value.content.Other?
    case Open(deployment, sourceRevision, manifest) =>
      d.plan.None? && ValidPlan(NewPlan(deployment, sourceRevision, manifest, d.nextId))
    case _ => d.plan.Some? && PlanStepEnabled(d, d.plan.value, s)
  }

  predicate PlanStepEnabled(d: Disk, p: Plan, s: Step) {
    match s
    case Store(c) => ChangeEnabled(d, p, c)
    case Forget => p.phase.CleanupPending? && p.cleanupId.Some? && !MustSettle(d, p)
    case Look => p.phase.Invalidating?
    // Having seen the slot empty, the process has unbound the plan before it signs.
    case Record(_) =>
      && p.phase.Invalidating? && d.slot.None?
      && (d.observed.SawEntry? || (d.observed.SawEmpty? && p.invalidationId.None? && p.invalidationHash.None?))
    case SendControl => p.phase.Invalidating? && Bound(d, p) && p.wrapperId.Some? && p.candidate.Some?
    case Answered(_) =>
      p.phase.Invalidating? && Bound(d, p) && p.candidate.Some? && p.wrapperId.Some?
      && Wrapped(p.wrapperId.value, p.invalidationId.value, p.candidate.value) in d.sent
    case Settle => d.observed.Heard? && HoldsInvalidation(d, p) && d.slot.value.id in d.answered
    case SendActivate(now) =>
      && p.phase.WaitingForDeadline? && p.activateId.Some? && p.notBefore.Some? && p.notBefore.value < now
      && !MustSettle(d, p)
    case _ => false
  }

  function Apply(d: Disk, s: Step): Disk {
    match s
    case Crash => d.(observed := NotLooked)
    case OtherRecords(what) => d.(slot := Some(Entry(d.nextId, Other(what))), nextId := d.nextId + 1)
    case OtherClears => d.(slot := None)
    case Open(deployment, sourceRevision, manifest) =>
      d.(plan := Some(NewPlan(deployment, sourceRevision, manifest, d.nextId)), nextId := d.nextId + 2,
         observed := NotLooked)
    case _ => if d.plan.None? then d else ApplyToPlan(d, d.plan.value, s)
  }

  function ApplyToPlan(d: Disk, p: Plan, s: Step): Disk {
    match s
    case Store(c) => d.(plan := Some(Changed(p, c, d.slot, d.nextId)), nextId := d.nextId + 1)
    case Forget => d.(plan := None, observed := NotLooked)
    case Look => d.(observed := if d.slot.None? then SawEmpty else SawEntry)
    case Record(config) =>
      d.(slot := Some(Entry(d.nextId, Invalidate(p.epoch, config))), nextId := d.nextId + 1)
    case SendControl =>
      if p.wrapperId.Some? && p.invalidationId.Some? && p.candidate.Some?
      then d.(sent := d.sent + {Wrapped(p.wrapperId.value, p.invalidationId.value, p.candidate.value)})
      else d
    case Answered(result) =>
      if p.invalidationId.None? then d
      else d.(observed := Heard, answered := d.answered + {p.invalidationId.value},
              succeeded := if result.Some? then d.succeeded + {(p.epoch, result.value)} else d.succeeded)
    case Settle => d.(slot := None)
    case SendActivate(now) =>
      if p.notBefore.None? then d
      else d.(activations := d.activations + {Activation(p.epoch, p.notBefore.value, now)})
    case _ => d
  }

  const FRESH := Disk(None, None, 0, NotLooked, {}, {}, {}, {})

  ghost const MACHINE: Runs.Machine<Disk, Step> := Runs.Machine(FRESH, Enabled, Apply)

  // ------------------------------------------------------------- invariant

  /** The two journals name different invalidations: the state in which recovery bails. */
  predicate Mismatch(d: Disk) {
    d.plan.Some? && d.plan.value.phase.Invalidating? && HoldsInvalidation(d, d.plan.value)
    && d.plan.value.invalidationId.Some? && !Bound(d, d.plan.value)
  }

  ghost predicate PlanInv(d: Disk, p: Plan) {
    && ValidPlan(p)
    && p.epoch < d.nextId && p.recoverId < d.nextId
    && (p.restored.Some? ==> p.restored.value == p.sourceRevision + 1)
    && (p.invalidationId.Some? <==> p.invalidationHash.Some?)
    && (p.invalidationId.None? ==> p.wrapperId.None?)
    && (p.invalidationId.Some? ==>
          p.invalidationId.value < d.nextId && p.invalidationHash.value.entry.id == p.invalidationId.value)
    && (p.wrapperId.Some? ==> p.wrapperId.value < d.nextId)
    && (p.candidate.None? <==> p.phase.Restoring?)
    && (p.phase.Restoring? ==> p.invalidationId.None?)
    && (p.phase.WaitingForDeadline? || p.phase.CleanupPending? ==> (p.epoch, p.notBefore.value) in d.succeeded)
    && (forall w :: w in d.sent && p.wrapperId == Some(w.wrapper) ==>
          p.invalidationId == Some(w.operation) && p.candidate == Some(w.candidate))
    && (p.invalidationId.Some? && p.phase.Invalidating? && d.slot.Some? && d.slot.value.id == p.invalidationId.value ==>
          Bound(d, p))
    && (d.observed.Heard? ==> !Mismatch(d))
    && (p.phase.WaitingForDeadline? ==> p.invalidationId.Some?)
  }

  ghost predicate Inv(d: Disk) {
    && (d.slot.Some? ==> d.slot.value.id < d.nextId)
    && (d.slot.Some? && d.slot.value.content.Invalidate? ==> d.slot.value.content.epoch < d.nextId)
    && (forall id :: id in d.answered ==> id < d.nextId)
    && (forall w :: w in d.sent ==> w.wrapper < d.nextId && w.operation < d.nextId)
    && (forall v, w :: v in d.sent && w in d.sent && v.wrapper == w.wrapper ==> v == w)
    && (forall a :: a in d.activations ==> (a.epoch, a.notBefore) in d.succeeded && a.notBefore < a.sentAt)
    && (d.plan.Some? ==> PlanInv(d, d.plan.value))
  }

  lemma StoreKeepsInv(d: Disk, c: Change)
    requires Inv(d) && Enabled(d, Store(c))
    ensures Inv(Apply(d, Store(c)))
  {
  }

  lemma SlotStepKeepsInv(d: Disk, s: Step)
    requires Inv(d) && Enabled(d, s) && (s.OtherRecords? || s.OtherClears? || s.Record? || s.Settle?)
    ensures Inv(Apply(d, s))
  {
  }

  lemma RemoteStepKeepsInv(d: Disk, s: Step)
    requires Inv(d) && Enabled(d, s) && (s.SendControl? || s.Answered? || s.SendActivate?)
    ensures Inv(Apply(d, s))
  {
  }

  lemma StepKeepsInv(d: Disk, s: Step)
    requires Inv(d) && Enabled(d, s)
    ensures Inv(Apply(d, s))
  {
    match s
    case Store(c) => StoreKeepsInv(d, c);
    case OtherRecords(_) => SlotStepKeepsInv(d, s);
    case OtherClears => SlotStepKeepsInv(d, s);
    case Record(_) => SlotStepKeepsInv(d, s);
    case Settle => SlotStepKeepsInv(d, s);
    case SendControl => RemoteStepKeepsInv(d, s);
    case Answered(_) => RemoteStepKeepsInv(d, s);
    case SendActivate(_) => RemoteStepKeepsInv(d, s);
    case _ =>
  }

  lemma {:induction false} RunKeepsInv(log: seq<Step>)
    requires Runs.IsRun(MACHINE, log)
    ensures Inv(Runs.After(MACHINE, log))
  {
    forall d, s | Inv(d) && Enabled(d, s) ensures Inv(Apply(d, s)) {
      StepKeepsInv(d, s);
    }
    Runs.Inductive(MACHINE, Inv, log);
  }
}
