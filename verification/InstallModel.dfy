/** Clean install: prepared-install journals, the registry, and the target's operation
    journal with what the attempts at an install did and left there. */
module InstallModel {
  import opened Prelude
  import Runs

  type Id = nat
  type Host = nat

  /** The non-secret facts that name one unfinished install. Their hash names its journal. */
  datatype Identity = Identity(host: Host, issuer: string, facts: nat)

  /** Credentials reach the target inside the operation but are no part of the identity. */
  datatype Request = Request(identity: Identity, alias: Option<string>, credentials: nat)

  datatype Plan = Plan(identity: Identity, deployment: Id, operation: Id, epoch: Id, runtime: nat, os: string)

  /** The whole operation; the target journals an injective hash of it. */
  datatype Operation = Operation(plan: Plan, credentials: nat)

  /** Failure codes: five that leave no terminal line in the target's journal, and the
      ordinary failures, which do. */
  datatype Code =
    | OperationIdConflict | OutcomeUnknown | PrivilegeRequired | JournalCapacity
    | Inadmissible | Failure(name: string)

  datatype Status = Pending | Completed | RolledBack(name: string)

  datatype Line = Line(operation: Operation, status: Status)

  datatype Registration = Registration(host: Host, issuer: string, alias: string)

  datatype Answer = Applied | Refused(code: Code)

  /** The answer the running controller process last got. */
  datatype Heard = Heard(operation: Operation, answer: Answer)

  /** On the controller, the prepared journals and the registry. On the targets, their
      operation journals, the deployments of which the running attempt has put something
      there, and those of which an attempt cut short has left something. Then the requests
      not answered yet and the answer last heard; and all that was ever prepared and sent. */
  datatype Disk = Disk(
    prepared: map<Identity, Plan>, registry: map<Id, Registration>, nextId: Id,
    journal: map<Id, Line>, performed: set<Id>, residue: set<Id>,
    open: set<Id>, heard: Option<Heard>,
    issued: map<Id, Plan>, sent: set<Operation>)

  // ------------------------------------------------------------------ steps

  /** `swept`: the attempt had got to everything earlier ones had left, and so undid it. */
  datatype Step =
    | Persist(plan: Plan)
    | Send(operation: Operation)
    | Accept(operation: Operation)
    | Perform(id: Id)
    | CutShort(id: Id)
    | Complete(id: Id)
    | RollBack(id: Id, name: string, swept: bool)
    | Deny(id: Id, swept: bool)
    | Hear(operation: Operation, answer: Answer)
    | Register(plan: Plan, record: Registration)
    | ClearRegistered(identity: Identity)
    | ClearFailed(identity: Identity, operation: Operation, code: Code)
    | Quit

  /** One fresh number serves as deployment id, operation id and epoch: three name spaces. */
  function NewPlan(identity: Identity, id: Id, runtime: nat, os: string): Plan {
    Plan(identity, id, id, id, runtime, os)
  }

  predicate IsPrepared(d: Disk, plan: Plan) {
    plan.identity in d.prepared && d.prepared[plan.identity] == plan
  }

  /** An attempt at the operation may be running. */
  predicate Attempting(d: Disk, id: Id) {
    id in d.open && id in d.journal && d.journal[id].status.Pending?
  }

  /** What the target may say to an operation while no attempt at it is running. */
  predicate MayAnswer(d: Disk, o: Operation, answer: Answer) {
    var id := o.plan.operation;
    && id !in d.performed
    && if id !in d.journal then answer == Refused(JournalCapacity) || answer == Refused(Inadmissible)
       else Replies(d.journal[id], o, answer)
  }

  /** An operation is checked before the journal is consulted, so one in the journal is sound. */
  predicate Replies(line: Line, o: Operation, answer: Answer) {
    if line.operation != o then answer == Refused(OperationIdConflict) || answer == Refused(Inadmissible)
    else match line.status
      case Pending => answer == Refused(OutcomeUnknown) || answer == Refused(PrivilegeRequired)
      case Completed => answer == Applied
      case RolledBack(name) => answer == Refused(Failure(name))
  }

  predicate Enabled(d: Disk, s: Step) {
    match s
    case Persist(plan) =>
      plan.identity !in d.prepared && plan == NewPlan(plan.identity, d.nextId, plan.runtime, plan.os)
    case Send(o) => IsPrepared(d, o.plan) && o.plan.deployment !in d.registry
    case Accept(o) => o in d.sent && o.plan.operation in d.open && o.plan.operation !in d.journal
    case Perform(id) => Attempting(d, id)
    case CutShort(id) => id in d.performed
    case Complete(id) => Attempting(d, id)
    case RollBack(id, _, swept) => Attempting(d, id) && (swept ==> id in d.performed)
    case Deny(id, swept) => Attempting(d, id) && (swept ==> id in d.performed)
    case Hear(o, answer) => o in d.sent && o.plan.operation in d.open && MayAnswer(d, o, answer)
    case Register(plan, record) =>
      && IsPrepared(d, plan) && d.heard.Some? && d.heard.value.answer.Applied? && d.heard.value.operation.plan == plan
      && plan.deployment !in d.registry
      && record.host == plan.identity.host && record.issuer == plan.identity.issuer
    case ClearRegistered(identity) => identity in d.prepared && d.prepared[identity].deployment in d.registry
    case ClearFailed(identity, o, code) =>
      && identity in d.prepared && o.plan == d.prepared[identity]
      && d.heard == Some(Heard(o, Refused(code))) && code != OutcomeUnknown
    case Quit => true
  }

  /** An attempt ends: what it did is undone, and what it had swept of earlier ones. */
  function Undone(d: Disk, id: Id, swept: bool): Disk {
    d.(performed := d.performed - {id}, residue := if swept then d.residue - {id} else d.residue)
  }

  function Apply(d: Disk, s: Step): Disk {
    match s
    case Persist(plan) =>
      d.(prepared := d.prepared[plan.identity := plan], issued := d.issued[plan.operation := plan],
         nextId := d.nextId + 1, heard := None)
    case Send(o) => d.(sent := d.sent + {o}, open := d.open + {o.plan.operation}, heard := None)
    case Accept(o) => d.(journal := d.journal[o.plan.operation := Line(o, Pending)])
    case Perform(id) => d.(performed := d.performed + {id})
    case CutShort(id) => d.(performed := d.performed - {id}, residue := d.residue + {id})
    case Complete(id) =>
      if id in d.journal
      then Undone(d, id, true).(journal := d.journal[id := d.journal[id].(status := Completed)]) else d
    case RollBack(id, name, swept) =>
      if id in d.journal
      then Undone(d, id, swept).(journal := d.journal[id := d.journal[id].(status := RolledBack(name))]) else d
    case Deny(id, swept) => Undone(d, id, swept)
    case Hear(o, answer) => d.(open := d.open - {o.plan.operation}, heard := Some(Heard(o, answer)))
    case Register(plan, record) => d.(registry := d.registry[plan.deployment := record])
    case ClearRegistered(identity) => d.(prepared := d.prepared - {identity}, heard := None)
    case ClearFailed(identity, _, _) => d.(prepared := d.prepared - {identity}, heard := None)
    case Quit => d.(heard := None)
  }

  const FRESH := Disk(map[], map[], 0, map[], {}, {}, {}, None, map[], {})

  ghost const MACHINE: Runs.Machine<Disk, Step> := Runs.Machine(FRESH, Enabled, Apply)

  // ------------------------------------------------------------- invariant

  predicate Issued(d: Disk, p: Plan) {
    p.operation in d.issued && d.issued[p.operation] == p
  }

  predicate HeardInv(d: Disk, h: Heard) {
    var id := h.operation.plan.operation;
    && h.operation in d.sent && id !in d.open && MayAnswer(d, h.operation, h.answer)
    && IsPrepared(d, h.operation.plan)
    && (h.answer.Refused? ==> id !in d.registry)
  }

  predicate LineInv(d: Disk, id: Id)
    requires id in d.journal
  {
    var line := d.journal[id];
    line.operation in d.sent && line.operation.plan.operation == id
  }

  ghost predicate PlansInv(d: Disk) {
    && (forall id :: id in d.issued ==>
          d.issued[id].operation == d.issued[id].deployment == d.issued[id].epoch == id < d.nextId)
    && (forall i :: i in d.prepared ==> d.prepared[i].identity == i && Issued(d, d.prepared[i]))
    && (forall o :: o in d.sent ==> Issued(d, o.plan))
  }

  ghost predicate OpenInv(d: Disk) {
    forall id :: id in d.open ==> id in d.issued && IsPrepared(d, d.issued[id]) && id !in d.registry
  }

  ghost predicate TargetInv(d: Disk) {
    && (forall id :: id in d.journal ==> LineInv(d, id))
    && (forall id :: id in d.registry ==> id in d.issued && id in d.journal && d.journal[id].status.Completed?)
    && d.performed <= d.open && d.performed <= d.journal.Keys && d.residue <= d.journal.Keys
  }

  ghost predicate Inv(d: Disk) {
    PlansInv(d) && OpenInv(d) && TargetInv(d) && (d.heard.Some? ==> HeardInv(d, d.heard.value))
  }

  /** Only three kinds of steps change what is planned and sent. */
  predicate Plans(s: Step) { s.Persist? || s.Send? || s.ClearRegistered? || s.ClearFailed? }

  lemma PlansFrame(d: Disk, s: Step)
    requires !Plans(s)
    ensures Apply(d, s).issued == d.issued && Apply(d, s).prepared == d.prepared
    ensures Apply(d, s).sent == d.sent && Apply(d, s).nextId == d.nextId
  {
  }

  lemma PersistStep(d: Disk, p: Plan)
    requires Inv(d) && Enabled(d, Persist(p))
    ensures PlansInv(Apply(d, Persist(p)))
  {
  }

  lemma SendStep(d: Disk, o: Operation)
    requires Inv(d) && Enabled(d, Send(o))
    ensures PlansInv(Apply(d, Send(o)))
  {
  }

  lemma ClearStep(d: Disk, s: Step)
    requires Inv(d) && Enabled(d, s) && (s.ClearRegistered? || s.ClearFailed?)
    ensures PlansInv(Apply(d, s))
  {
  }

  lemma PlansStep(d: Disk, s: Step)
    requires Inv(d) && Enabled(d, s)
    ensures PlansInv(Apply(d, s))
  {
    match s
    case Persist(p) => PersistStep(d, p);
    case Send(o) => SendStep(d, o);
    case ClearRegistered(_) => ClearStep(d, s);
    case ClearFailed(_, _, _) => ClearStep(d, s);
    case _ => PlansFrame(d, s);
  }

  lemma OpenStep(d: Disk, s: Step)
    requires Inv(d) && Enabled(d, s)
    ensures OpenInv(Apply(d, s))
  {
  }

  /** The steps of an attempt at a target. */
  predicate Attempts(s: Step) {
    s.Accept? || s.Perform? || s.CutShort? || s.Complete? || s.RollBack? || s.Deny?
  }

  lemma AttemptStep(d: Disk, s: Step)
    requires Inv(d) && Enabled(d, s) && Attempts(s)
    ensures TargetInv(Apply(d, s))
  {
  }

  lemma ControllerStep(d: Disk, s: Step)
    requires Inv(d) && Enabled(d, s) && !Attempts(s)
    ensures TargetInv(Apply(d, s))
  {
  }

  lemma HeardStep(d: Disk, s: Step)
    requires Inv(d) && Enabled(d, s)
    ensures Apply(d, s).heard.Some? ==> HeardInv(Apply(d, s), Apply(d, s).heard.value)
  {
  }

  lemma StepKeepsInv(d: Disk, s: Step)
    requires Inv(d) && Enabled(d, s)
    ensures Inv(Apply(d, s))
  {
    PlansStep(d, s);
    OpenStep(d, s);
    if Attempts(s) { AttemptStep(d, s); } else { ControllerStep(d, s); }
    HeardStep(d, s);
  }

  lemma {:induction false} RunKeepsInv(log: seq<Step>)
    requires Runs.IsRun(MACHINE, log)
    ensures Inv(Runs.After(MACHINE, log))
  {
    forall d, s | Inv(d) && Enabled(d, s) ensures Inv(Apply(d, s)) {
      StepKeepsInv(d, s);
    }
    Runs.Inductive(MACHINE, Inv, log);
  }
}
