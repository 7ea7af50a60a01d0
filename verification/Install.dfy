/** `install`: one process at a time, under the one prepared-install lock. Answers may be
    lost, writes may fail, and the process may be killed between any two of them. */
module Install {
  import opened Prelude
  import opened InstallModel
  import opened InstallSafety
  import Runs

  /** What the verified handshake and the target's inspection say. */
  datatype Hello = Hello(host: Host, os: string, runtime: Option<nat>)
  datatype Inspection = Unknown | Existing(issuer: string) | InspectionFailed

  datatype Outcome =
    | Installed | AlreadyInstalled | TargetDrifted | RuntimeUnavailable | ConflictingRecord | AliasTaken
    | RegistrationRefused | WouldOverwrite | InspectionError | OutcomeUnknown | InstallFailed(code: Code) | Interrupted

  /** What becomes of one request at the target: whether it passes its check, whether the
      journal has room, whether the attempt gets to write anything, whether it is killed or
      commits; and if neither, whether its rollback is complete, how far it reached into what
      earlier attempts left, and whether it was privileges that were wanting. */
  datatype Fate = Fate(
    sound: bool, room: bool, writes: bool, killed: bool, commits: bool,
    undone: bool, reached: bool, privileged: bool, failure: string)

  function Unsuccessful(fate: Fate): Option<Answer> {
    Some(Refused(if !fate.undone then Code.OutcomeUnknown
                 else if !fate.privileged then PrivilegeRequired else Failure(fate.failure)))
  }

  /** The answer when none is lost. */
  function Reply(journal: map<Id, Line>, o: Operation, fate: Fate): Option<Answer> {
    var id := o.plan.operation;
    if id in journal && journal[id].operation == o && journal[id].status.Completed? then Some(Applied)
    else if id in journal && journal[id].operation == o && journal[id].status.RolledBack? then
      Some(Refused(Failure(journal[id].status.name)))
    else if !fate.sound && (id !in journal || journal[id].operation != o) then Some(Refused(Inadmissible))
    else if id in journal && journal[id].operation != o then Some(Refused(OperationIdConflict))
    else if id !in journal && !fate.room then Some(Refused(JournalCapacity))
    else if fate.killed then None
    else if fate.commits then Some(Applied)
    else Unsuccessful(fate)
  }

  /** What a record that is there already makes of a rerun. */
  function ByRecord(record: Registration, p: Plan, inspection: Inspection): Outcome {
    if (record.host, record.issuer) != (p.identity.host, p.identity.issuer) then ConflictingRecord
    else if inspection == Existing(p.identity.issuer) then AlreadyInstalled
    else InspectionError
  }

  predicate AliasUsed(registry: map<Id, Registration>, alias: string) {
    exists id :: id in registry && registry[id].alias == alias
  }

  /** What the target's answer makes of an undisturbed install. */
  function ByReply(reply: Option<Answer>, aliasUsed: bool): Outcome {
    match reply
    case None => Outcome.OutcomeUnknown
    case Some(Refused(code)) => if code.OutcomeUnknown? then Outcome.OutcomeUnknown else InstallFailed(code)
    case Some(Applied) => if aliasUsed then RegistrationRefused else Installed
  }

  /** How a command ends that nothing disturbs. */
  function Undisturbed(d: Disk, request: Request, hello: Hello, inspection: Inspection, ownName: string, fate: Fate)
    : Outcome
  {
    var resumed := request.identity in d.prepared;
    if resumed && d.prepared[request.identity].os != hello.os then TargetDrifted
    else if hello.runtime.None? || (resumed && hello.runtime != Some(d.prepared[request.identity].runtime)) then
      RuntimeUnavailable
    else
      var p := if resumed then d.prepared[request.identity]
               else NewPlan(request.identity, d.nextId, hello.runtime.value, hello.os);
      OfPlan(d, p, resumed, request, inspection, ownName, fate)
  }

  function OfPlan(d: Disk, p: Plan, resumed: bool, request: Request, inspection: Inspection, ownName: string,
                  fate: Fate): Outcome
  {
    var alias := if request.alias.Some? then request.alias.value else ownName;
    if p.deployment in d.registry then ByRecord(d.registry[p.deployment], p, inspection)
    else if request.alias.Some? && AliasUsed(d.registry, alias) then AliasTaken
    else if inspection.InspectionFailed? then InspectionError
    else if inspection.Existing? && !(resumed && inspection.issuer == request.identity.issuer) then WouldOverwrite
    else ByReply(Reply(d.journal, Operation(p, request.credentials), fate), AliasUsed(d.registry, alias))
  }

  class Installer {
    // No write fails, no process of the controller is killed and no answer is lost.
    const calm: bool
    var prepared: map<Identity, Plan>
    var registry: map<Id, Registration>
    var nextId: Id
    // Kept by the target.
    var journal: map<Id, Line>
    ghost var world: Disk
    ghost var log: seq<Step>

    ghost predicate Valid() reads this {
      && Runs.IsRun(MACHINE, log) && Runs.After(MACHINE, log) == world
      && world.prepared == prepared && world.registry == registry && world.nextId == nextId
      && world.journal == journal
    }

    constructor (calm: bool)
      ensures Valid() && world == FRESH && this.calm == calm
    {
      this.calm := calm;
      prepared, registry, nextId, journal := map[], map[], 0, map[];
      world, log := FRESH, [];
    }

    // ---------------------------------------------------------- durable writes

    method PersistPlan(p: Plan) returns (ok: bool)
      requires Valid() && Enabled(world, Persist(p))
      modifies `prepared, `nextId, `world, `log
      ensures Valid() && world == (if ok then Apply(old(world), Persist(p)) else old(world)) && (calm ==> ok)
    {
      var io := Attempt(calm);
      ok := io.Done?;
      if ok {
        Runs.Extend(MACHINE, log, Persist(p));
        world, log := Apply(world, Persist(p)), log + [Persist(p)];
        prepared, nextId := prepared[p.identity := p], nextId + 1;
      }
    }

    method RegisterInstance(p: Plan, record: Registration) returns (ok: bool)
      requires Valid() && Enabled(world, Register(p, record))
      modifies `registry, `world, `log
      ensures Valid() && world == (if ok then Apply(old(world), Register(p, record)) else old(world)) && (calm ==> ok)
    {
      var io := Attempt(calm);
      ok := io.Done?;
      if ok {
        Runs.Extend(MACHINE, log, Register(p, record));
        world, log := Apply(world, Register(p, record)), log + [Register(p, record)];
        registry := registry[p.deployment := record];
      }
    }

    /** Removes the prepared journal; `s` says on what grounds. */
    method ClearLease(identity: Identity, ghost s: Step) returns (ok: bool)
      requires Valid() && Enabled(world, s)
      requires s == ClearRegistered(identity) || (s.ClearFailed? && s.identity == identity)
      modifies `prepared, `world, `log
      ensures Valid() && world == (if ok then Apply(old(world), s) else old(world)) && (calm ==> ok)
    {
      var io := Attempt(calm);
      ok := io.Done?;
      if ok {
        Runs.Extend(MACHINE, log, s);
        world, log := Apply(world, s), log + [s];
        prepared := prepared - {identity};
      }
    }

    // ------------------------------------------------------------------ target

    /** A step that touches nothing the controller keeps and no line of the target's journal. */
    ghost method Advance(s: Step)
      requires Valid() && Enabled(world, s)
      requires s.Send? || s.Perform? || s.CutShort? || s.Deny? || s.Hear? || s.Quit?
      modifies `world, `log
      ensures Valid() && world == Apply(old(world), s)
    {
      Runs.Extend(MACHINE, log, s);
      world, log := Apply(world, s), log + [s];
    }

    method WriteLine(s: Step, line: Line)
      requires Valid() && Enabled(world, s) && (s.Accept? || s.Complete? || s.RollBack?)
      requires Apply(world, s).journal == journal[line.operation.plan.operation := line]
      modifies `journal, `world, `log
      ensures Valid() && world == Apply(old(world), s)
      ensures journal == old(journal)[line.operation.plan.operation := line]
    {
      Runs.Extend(MACHINE, log, s);
      world, log := Apply(world, s), log + [s];
      journal := journal[line.operation.plan.operation := line];
    }

    /** One attempt at a pending install. It commits; or is killed; or fails and undoes what it
        did, with a terminal line, or without one where privileges or a complete rollback
        are wanting. */
    method TryInstall(o: Operation, fate: Fate) returns (answer: Option<Answer>)
      requires Valid() && Attempting(world, o.plan.operation) && journal[o.plan.operation] == Line(o, Pending)
      requires o.plan.operation !in world.performed
      modifies `journal, `world, `log
      ensures Valid() && o.plan.operation !in world.performed
      ensures world == old(world).(journal := world.journal, performed := world.performed, residue := world.residue)
      ensures o.plan.operation in journal && (answer.Some? ==> Replies(journal[o.plan.operation], o, answer.value))
      ensures answer == if fate.killed then None else if fate.commits then Some(Applied) else Unsuccessful(fate)
    {
      var id := o.plan.operation;
      if fate.writes { Advance(Perform(id)); }
      if fate.killed {
        if fate.writes { Advance(CutShort(id)); }
        return None;
      }
      if fate.commits {
        WriteLine(Complete(id), Line(o, Completed));
        return Some(Applied);
      }
      answer := UndoInstall(o, fate);
    }

    method UndoInstall(o: Operation, fate: Fate) returns (answer: Option<Answer>)
      requires Valid() && Attempting(world, o.plan.operation) && journal[o.plan.operation] == Line(o, Pending)
      requires fate.writes <==> o.plan.operation in world.performed
      modifies `journal, `world, `log
      ensures Valid() && o.plan.operation !in world.performed
      ensures world == old(world).(journal := world.journal, performed := world.performed, residue := world.residue)
      ensures o.plan.operation in journal && (answer.Some? ==> Replies(journal[o.plan.operation], o, answer.value))
      ensures answer == Unsuccessful(fate)
      ensures o.plan.operation in world.residue <==>
                || (o.plan.operation in old(world).residue && !(fate.writes && fate.undone && fate.reached))
                || (fate.writes && !fate.undone)
    {
      var id := o.plan.operation;
      if !fate.undone {
        if fate.writes { Advance(CutShort(id)); }
        return Some(Refused(Code.OutcomeUnknown));
      }
      var swept := fate.writes && fate.reached;
      if !fate.privileged {
        Advance(Deny(id, swept));
        return Some(Refused(PrivilegeRequired));
      }
      WriteLine(RollBack(id, fate.failure, swept), Line(o, RolledBack(fate.failure)));
      answer := Some(Refused(Failure(fate.failure)));
    }

    /** `run_journaled`, after a check of the operation itself that one already accepted passes:
        refuses another operation under a known id, repeats a final answer, accepts a new
        operation if there is room, and otherwise tries. The request and the answer may each
        be lost. */
    method ExecuteInstall(o: Operation, fate: Fate) returns (answer: Option<Answer>)
      requires Valid() && IsPrepared(world, o.plan) && o.plan.deployment !in registry
      modifies `journal, `world, `log
      ensures Valid() && o in world.sent
      ensures world.prepared == old(world).prepared && world.registry == old(world).registry
      ensures world.nextId == old(world).nextId
      ensures answer.Some? ==> world.heard == Some(Heard(o, answer.value)) && MayAnswer(world, o, answer.value)
      ensures answer.Some? ==> answer == Reply(old(journal), o, fate)
      ensures calm ==> answer == Reply(old(journal), o, fate)
    {
      RunKeepsInv(log);
      Advance(Send(o));
      var arrives := Oracle();
      if !arrives && !calm { return None; }
      // The lock of the deployment is free: no earlier attempt goes on.
      ghost var id := o.plan.operation;
      if id in world.performed { Advance(CutShort(id)); }
      answer := Respond(o, fate);
      var answered := Oracle();
      if answer.None? || (!answered && !calm) { return None; }
      Advance(Hear(o, answer.value));
    }

    method Respond(o: Operation, fate: Fate) returns (answer: Option<Answer>)
      requires Valid() && o in world.sent && o.plan.operation in world.open && o.plan.operation !in world.performed
      modifies `journal, `world, `log
      ensures Valid()
      ensures world == old(world).(journal := world.journal, performed := world.performed, residue := world.residue)
      ensures answer.Some? ==> MayAnswer(world, o, answer.value)
      ensures answer == Reply(old(journal), o, fate)
    {
      var id := o.plan.operation;
      if !fate.sound && (id !in journal || journal[id].operation != o) { return Some(Refused(Inadmissible)); }
      if id !in journal {
        if !fate.room { return Some(Refused(JournalCapacity)); }
        WriteLine(Accept(o), Line(o, Pending));
      }
      var line := journal[id];
      if line.operation != o { return Some(Refused(OperationIdConflict)); }
      match line.status {
        case Completed => answer := Some(Applied);
        case RolledBack(name) => answer := Some(Refused(Failure(name)));
        case Pending => answer := TryInstall(o, fate);
      }
    }

    // ----------------------------------------------------------------- command

    /** The stored plan of this very request, if it still fits the target, or a new one. */
    method ObtainPlan(request: Request, hello: Hello) returns (plan: Option<Plan>, resumed: bool, outcome: Outcome)
      requires Valid() && hello.host == request.identity.host
      modifies `prepared, `nextId, `world, `log
      ensures Valid() && registry == old(registry) && journal == old(journal) && world.sent == old(world).sent
      ensures resumed <==> request.identity in old(prepared)
      ensures plan.Some? ==>
                && IsPrepared(world, plan.value) && plan.value.identity == request.identity
                && plan.value.os == hello.os && hello.runtime == Some(plan.value.runtime)
                && plan.value == (if resumed then old(prepared)[request.identity]
                                  else NewPlan(request.identity, old(nextId), plan.value.runtime, hello.os))
      ensures resumed ==> prepared == old(prepared)
      ensures plan.None? ==>
                && prepared == old(prepared)
                && (outcome.TargetDrifted? || outcome.RuntimeUnavailable? || outcome.Interrupted?)
                && (outcome.Interrupted? ==> !calm)
      ensures plan.None? && outcome.TargetDrifted? <==> resumed && old(prepared)[request.identity].os != hello.os
      ensures plan.None? && outcome.RuntimeUnavailable? <==>
                if !resumed then hello.runtime.None?
                else old(prepared)[request.identity].os == hello.os
                     && hello.runtime != Some(old(prepared)[request.identity].runtime)
    {
      RunKeepsInv(log);
      var identity := request.identity;
      resumed, plan, outcome := identity in prepared, None, Interrupted;
      if resumed {
        var stored := prepared[identity];
        if stored.identity.host != hello.host || stored.os != hello.os { return None, true, TargetDrifted; }
        if hello.runtime != Some(stored.runtime) { return None, true, RuntimeUnavailable; }
        return Some(stored), true, Interrupted;
      }
      if hello.runtime.None? { return None, false, RuntimeUnavailable; }
      var made := NewPlan(identity, nextId, hello.runtime.value, hello.os);
      var ok := PersistPlan(made);
      plan := if ok then Some(made) else None;
    }

    /** A record this plan's deployment already has closes the journal, if it is the same. */
    method CloseRegistered(p: Plan, inspection: Inspection) returns (outcome: Outcome)
      requires Valid() && IsPrepared(world, p) && p.deployment in registry
      modifies `prepared, `world, `log
      ensures calm ==> outcome == ByRecord(registry[p.deployment], p, inspection)
      ensures Valid() && registry == old(registry) && world.sent == old(world).sent
      ensures outcome.AlreadyInstalled? ==>
                && p.identity !in prepared && inspection == Existing(p.identity.issuer)
                && registry[p.deployment].host == p.identity.host && registry[p.deployment].issuer == p.identity.issuer
      ensures !outcome.AlreadyInstalled? ==> prepared == old(prepared)
      ensures outcome.AlreadyInstalled? || outcome.ConflictingRecord? || outcome.InspectionError?
              || outcome.Interrupted?
    {
      var record := registry[p.deployment];
      if record.host != p.identity.host || record.issuer != p.identity.issuer { return ConflictingRecord; }
      if inspection != Existing(p.identity.issuer) { return InspectionError; }
      var ok := ClearLease(p.identity, ClearRegistered(p.identity));
      outcome := if ok then AlreadyInstalled else Interrupted;
    }

    /** Sends the install and settles the journal by the answer. */
    method ExecuteAndRegister(p: Plan, request: Request, alias: string, fate: Fate) returns (outcome: Outcome)
      requires Valid() && IsPrepared(world, p) && p.identity == request.identity && p.deployment !in registry
      modifies `prepared, `registry, `journal, `world, `log
      ensures Valid() && Operation(p, request.credentials) in world.sent
      ensures outcome.Installed? ==>
                && p.identity !in prepared
                && registry == old(registry)[p.deployment := Registration(p.identity.host, p.identity.issuer, alias)]
      ensures outcome.InstallFailed? ==>
                && p.identity !in prepared && registry == old(registry) && !outcome.code.OutcomeUnknown?
                && MayAnswer(world, Operation(p, request.credentials), Refused(outcome.code))
      ensures outcome.OutcomeUnknown? || outcome.RegistrationRefused? ==>
                prepared == old(prepared) && registry == old(registry)
      ensures outcome.RegistrationRefused? ==> exists id :: id in registry && registry[id].alias == alias
      ensures outcome.Installed? ==> forall id :: id in old(registry) ==> old(registry)[id].alias != alias
      ensures outcome.Interrupted? ==> prepared == old(prepared)
      ensures outcome.Installed? || outcome.InstallFailed? || outcome.RegistrationRefused? || outcome.OutcomeUnknown?
              || outcome.Interrupted?
      ensures var reply := Reply(old(journal), Operation(p, request.credentials), fate);
              calm ==> outcome == ByReply(reply, AliasUsed(old(registry), alias))
    {
      var o := Operation(p, request.credentials);
      var answer := ExecuteInstall(o, fate);
      RunKeepsInv(log);
      match answer {
        case None => outcome := Outcome.OutcomeUnknown;
        case Some(Refused(code)) =>
          if code.OutcomeUnknown? { return Outcome.OutcomeUnknown; }
          var ok := ClearLease(p.identity, ClearFailed(p.identity, o, code));
          outcome := if ok then InstallFailed(code) else Interrupted;
        case Some(Applied) =>
          if AliasUsed(registry, alias) { return RegistrationRefused; }
          var ok := RegisterInstance(p, Registration(p.identity.host, p.identity.issuer, alias));
          if !ok { return Interrupted; }
          ok := ClearLease(p.identity, ClearRegistered(p.identity));
          outcome := if ok then Installed else Interrupted;
      }
    }

    /** Why a prepared journal is gone. */
    ghost predicate ClosedBy(p: Plan, credentials: nat, outcome: Outcome) reads this {
      || p.deployment in registry
      || (outcome.InstallFailed? && MayAnswer(world, Operation(p, credentials), Refused(outcome.code)))
    }

    /** `run_clean_install`. A rerun of an unfinished request resends the plan it left, and the
        plan outlives every outcome but a registration and a definite failure. */
    method RunCleanInstall(request: Request, hello: Hello, inspection: Inspection, ownName: string, fate: Fate)
      returns (outcome: Outcome)
      requires Valid() && hello.host == request.identity.host
      modifies this
      ensures Valid()
      ensures request.identity in old(prepared) && request.identity in prepared ==>
                prepared[request.identity] == old(prepared)[request.identity]
      ensures request.identity in old(prepared) && request.identity !in prepared ==>
                ClosedBy(old(prepared)[request.identity], request.credentials, outcome)
      ensures outcome.Installed? || outcome.AlreadyInstalled? || outcome.InstallFailed? ==>
                request.identity !in prepared
      ensures outcome.OutcomeUnknown? || outcome.RegistrationRefused? ==>
                request.identity in prepared
                && Operation(prepared[request.identity], request.credentials) in world.sent
      ensures outcome.WouldOverwrite? || outcome.AliasTaken? || outcome.InspectionError? ==>
                request.identity in prepared && world.sent == old(world).sent
      // It never overwrites: it sends only where there is nothing, or what it left itself.
      ensures world.sent != old(world).sent ==>
                || inspection.Unknown?
                || (request.identity in old(prepared) && inspection == Existing(request.identity.issuer))
      ensures world.sent != old(world).sent && request.identity in prepared ==>
                prepared[request.identity].os == hello.os
      ensures outcome.Installed? && request.alias.Some? ==> AliasUsed(registry, request.alias.value)
      ensures calm ==> outcome == Undisturbed(old(world), request, hello, inspection, ownName, fate)
    {
      // Whatever process ran before is gone.
      Advance(Quit);
      var plan, resumed;
      plan, resumed, outcome := ObtainPlan(request, hello);
      if plan.None? { return; }
      outcome := InstallPlan(plan.value, resumed, request, inspection, ownName, fate);
    }

    /** From a durable plan to the answer. */
    method InstallPlan(p: Plan, resumed: bool, request: Request, inspection: Inspection, ownName: string, fate: Fate)
      returns (outcome: Outcome)
      requires Valid() && IsPrepared(world, p) && p.identity == request.identity
      modifies `prepared, `registry, `journal, `world, `log
      ensures Valid()
      ensures p.identity in prepared ==> prepared[p.identity] == p
      ensures p.identity !in prepared ==> ClosedBy(p, request.credentials, outcome)
      ensures outcome.Installed? || outcome.AlreadyInstalled? || outcome.InstallFailed? ==> p.identity !in prepared
      ensures outcome.OutcomeUnknown? || outcome.RegistrationRefused? ==>
                p.identity in prepared && Operation(p, request.credentials) in world.sent
      ensures outcome.WouldOverwrite? || outcome.AliasTaken? || outcome.InspectionError? ==>
                p.identity in prepared && world.sent == old(world).sent
      ensures world.sent != old(world).sent ==>
                inspection.Unknown? || (resumed && inspection == Existing(request.identity.issuer))
      ensures outcome.Installed? && request.alias.Some? ==> AliasUsed(registry, request.alias.value)
      ensures outcome.AliasTaken? ==>
                request.alias.Some? && exists id :: id in registry && registry[id].alias == request.alias.value
      ensures !outcome.TargetDrifted? && !outcome.RuntimeUnavailable?
      ensures calm ==> outcome == OfPlan(old(world), p, resumed, request, inspection, ownName, fate)
    {
      if p.deployment in registry {
        outcome := CloseRegistered(p, inspection);
        return;
      }
      if request.alias.Some? && AliasUsed(registry, request.alias.value) { return AliasTaken; }
      if inspection.InspectionFailed? { return InspectionError; }
      if inspection.Existing? && !(resumed && inspection.issuer == p.identity.issuer) { return WouldOverwrite; }
      var alias := if request.alias.Some? then request.alias.value else ownName;
      outcome := ExecuteAndRegister(p, request, alias, fate);
      assert outcome.Installed? ==> p.deployment in registry && registry[p.deployment].alias == alias;
    }
  }
}
