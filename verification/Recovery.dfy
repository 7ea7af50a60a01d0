/** `recover`: one process at a time runs it, holding the recovery lock; other commands use
    the control-operation slot meanwhile. */
module Recovery {
  import opened Prelude
  import opened RecoveryModel
  import opened RecoverySafety
  import Runs

  /** What the target said about the wrapped invalidation. */
  datatype Verdict =
    | Unauthorized
    | Refused(conflict: bool)
    | Unknown
    | InProgress
    | TerminalFailed
    | TerminalSucceeded(epoch: Id, notBefore: int)

  datatype Outcome =
    | Recovered | Interrupted | TargetFailed | NoSnapshot | SlotBusy | JournalsDisagree
    | NeedsSecret | InvalidationRefused(conflict: bool) | InvalidationUnfinished | InvalidationFailed

  /** Which of its requests the target carries out; `identity` is the ceremony that installs a
      new controller key. */
  datatype Remote = Remote(
    restore: bool, stage: bool, inspect: bool, identity: bool, activate: bool, cleanup: bool)

  /** There is a plan to go on with, or a restore-tested snapshot to begin one for. */
  predicate Opens(plan: Option<Plan>, deployment: string, manifest: Option<string>) {
    plan.Some? || (manifest.Some? && |manifest.value| == 64 && deployment != "")
  }

  predicate Willing(remote: Remote) { remote == Remote(true, true, true, true, true, true) }

  /** The slot is free for this invalidation, or holds it. */
  predicate Free(slot: Option<Entry>, epoch: Id, config: nat) {
    slot.None? || slot.value.content == Invalidate(epoch, config)
  }

  /** One turn of the invalidation loop: another one is needed, or the deadline is stored, or
      the command ends. */
  datatype Turn = Again | Waits(notBefore: int) | Ends(outcome: Outcome)

  /** Where one answer leads. */
  function Reaction(verdict: Verdict, epoch: Id, secret: bool, identity: bool): Turn {
    match verdict
    case Unauthorized => if !secret then Ends(NeedsSecret) else if identity then Again else Ends(TargetFailed)
    case Refused(conflict) => Ends(InvalidationRefused(conflict))
    case Unknown => Ends(InvalidationUnfinished)
    case InProgress => Ends(InvalidationUnfinished)
    case TerminalFailed => Ends(InvalidationFailed)
    case TerminalSucceeded(answered, notBefore) =>
      if answered == epoch then Waits(notBefore) else Ends(TargetFailed)
  }

  /** Where the answers lead, one after the other; when they run out no further one arrives. */
  function Reactions(verdicts: seq<Verdict>, epoch: Id, secret: bool, identity: bool): Turn {
    if verdicts == [] then Ends(InvalidationUnfinished)
    else match Reaction(verdicts[0], epoch, secret, identity)
      case Again => Reactions(verdicts[1..], epoch, secret, identity)
      case turn => turn
  }

  /** The outcomes that report what the target answered. */
  predicate Reports(outcome: Outcome) {
    || outcome.InvalidationRefused? || outcome.InvalidationFailed? || outcome.InvalidationUnfinished?
    || outcome.NeedsSecret?
  }

  predicate Passes(clock: seq<int>, notBefore: int) { exists now :: now in clock && notBefore < now }

  /** How the answers to the invalidation decide an undisturbed run. */
  predicate EndsWith(outcome: Outcome, turn: Turn, clock: seq<int>, remote: Remote) {
    match turn
    case Again => false
    case Ends(reported) => outcome == reported
    case Waits(notBefore) => outcome.Recovered? <==> Passes(clock, notBefore) && remote.activate && remote.cleanup
  }

  /** How an undisturbed run ends that finds its plan at this place. */
  predicate EndsAs(outcome: Outcome, p: Plan, turn: Turn, clock: seq<int>, remote: Remote) {
    match p.phase
    case Restoring => true
    case Invalidating => EndsWith(outcome, turn, clock, remote)
    case WaitingForDeadline =>
      outcome.Recovered? <==> p.notBefore.Some? && Passes(clock, p.notBefore.value) && remote.activate && remote.cleanup
    case CleanupPending => outcome.Recovered? <==> remote.cleanup
  }

  /** The target said what the outcome reports. */
  predicate Told(outcome: Outcome, verdicts: seq<Verdict>) {
    match outcome
    case InvalidationRefused(conflict) => Refused(conflict) in verdicts
    case InvalidationFailed => TerminalFailed in verdicts
    case NeedsSecret => Unauthorized in verdicts
    case _ => true
  }

  /** What no step of a recovery changes. */
  predicate SamePlan(now: Plan, before: Plan) {
    && now.epoch == before.epoch && now.recoverId == before.recoverId && now.deployment == before.deployment
    && now.sourceRevision == before.sourceRevision && now.manifest == before.manifest
    && now.version == before.version
  }

  /** A run that finds the target's answer stored goes on from there, unless it is asked for
      another version. */
  predicate Resumes(plan: Option<Plan>, requested: Option<string>) {
    plan.Some? && Waited(plan.value) && (requested.None? || plan.value.version == requested)
  }

  /** The answer over a slot that holds another invalidation than the plan is bound to. It is
      not resumed at all once the configuration has changed. */
  function DisagreeingOutcome(epoch: Id, slot: Option<Entry>, config: nat): Outcome {
    if slot.Some? && slot.value.content == Invalidate(epoch, config) then JournalsDisagree else SlotBusy
  }

  class Controller {
    // No local write fails, no process is killed and no other command runs.
    const calm: bool
    var plan: Option<Plan>
    var slot: Option<Entry>
    var nextId: Id
    ghost var world: Disk
    ghost var log: seq<Step>

    ghost predicate Valid() reads this {
      && Runs.IsRun(MACHINE, log) && Runs.After(MACHINE, log) == world
      && world.plan == plan && world.slot == slot && world.nextId == nextId
    }

    ghost predicate Has(p: Plan) reads this { Valid() && plan == Some(p) }

    constructor (calm: bool)
      ensures Valid() && world == FRESH && this.calm == calm
    {
      this.calm := calm;
      plan, slot, nextId := None, None, 0;
      world, log := FRESH, [];
    }

    ghost method Advance(s: Step)
      requires Valid() && Enabled(world, s)
      requires s.Look? || s.SendControl? || s.Answered? || s.SendActivate? || s.Crash?
      modifies `world, `log
      ensures Valid() && world == Apply(old(world), s)
    {
      Runs.Extend(MACHINE, log, s);
      world, log := Apply(world, s), log + [s];
    }

    /** Other commands use the slot while it is theirs to use. */
    method Others()
      requires Valid()
      modifies `slot, `nextId, `world, `log
      ensures Valid() && old(nextId) <= nextId
      ensures world == old(world).(slot := world.slot, nextId := world.nextId)
      ensures old(slot).Some? && old(slot).value.content.Invalidate? ==> slot == old(slot)
      ensures slot.Some? && slot.value.content.Invalidate? ==> slot == old(slot)
      ensures calm ==> world == old(world)
    {
    }

    /** `RecoveryJournal.store` */
    method StorePlan(p: Plan, c: Change) returns (ok: bool)
      requires Has(p) && Enabled(world, Store(c))
      modifies `plan, `nextId, `world, `log
      ensures Valid() && (calm ==> ok)
      ensures if ok then world == Apply(old(world), Store(c)) else world == old(world)
      ensures ok ==> plan == Some(Changed(p, c, slot, old(nextId)))
    {
      var io := Attempt(calm);
      ok := io.Done?;
      if ok {
        Runs.Extend(MACHINE, log, Store(c));
        world, log := Apply(world, Store(c)), log + [Store(c)];
        plan, nextId := Some(Changed(p, c, slot, nextId)), nextId + 1;
      }
    }

    /** Empties the slot of this plan's answered invalidation. */
    method SettleSlot(p: Plan) returns (ok: bool)
      requires Has(p) && Enabled(world, Settle)
      modifies `slot, `world, `log
      ensures Valid() && (calm ==> ok)
      ensures if ok then world == Apply(old(world), Settle) else world == old(world)
    {
      var io := Attempt(calm);
      ok := io.Done?;
      if ok {
        Runs.Extend(MACHINE, log, Settle);
        world, log := Apply(world, Settle), log + [Settle];
        slot := None;
      }
    }

    // ---------------------------------------------------------- invalidation

    /** The slot's entry for this plan's invalidation, journaled now if there was none. */
    method PrepareInvalidation(p: Plan, config: nat) returns (entry: Option<Entry>, outcome: Outcome)
      requires Has(p) && p.phase.Invalidating? && !world.observed.NotLooked? && !world.observed.Heard?
      requires world.observed.SawEmpty? ==> p.invalidationId.None? && p.invalidationHash.None?
      modifies `slot, `nextId, `world, `log
      ensures Has(p) && old(world).observed == world.observed
      ensures entry.Some? ==> slot == entry && entry.value.content == Invalidate(p.epoch, config)
      ensures old(slot).Some? && old(slot).value.content.Invalidate? && entry.Some? ==> entry == old(slot)
      ensures calm && old(slot).Some? ==> slot == old(slot)
      ensures calm ==> (entry.Some? <==> Free(old(slot), p.epoch, config)) && (entry.None? ==> outcome.SlotBusy?)
      ensures old(slot).Some? && old(slot).value.content.Invalidate? ==>
                slot == old(slot) && (entry.None? ==> outcome.SlotBusy?)
                && (entry.Some? <==> slot.value.content == Invalidate(p.epoch, config))
    {
      Others();
      outcome := SlotBusy;
      if slot.Some? {
        entry := if slot.value.content == Invalidate(p.epoch, config) then slot else None;
        return;
      }
      Others();
      var io := Attempt(calm);
      if slot.Some? || !io.Done? { return None, Interrupted; }
      Runs.Extend(MACHINE, log, Record(config));
      world, log := Apply(world, Record(config)), log + [Record(config)];
      slot, nextId := Some(Entry(nextId, Invalidate(p.epoch, config))), nextId + 1;
      entry := slot;
    }

    /** Looks at the slot and unbinds the plan from an operation that is gone. */
    method UnbindIfGone(p: Plan) returns (ok: bool)
      requires Has(p) && p.phase.Invalidating?
      modifies `plan, `slot, `nextId, `world, `log
      ensures Valid() && !world.observed.NotLooked? && !world.observed.Heard?
      ensures plan == Some(p) || plan == Some(Unbound(p))
      ensures ok && world.observed.SawEmpty? ==> plan == Some(Unbound(p))
      ensures old(slot).Some? && old(slot).value.content.Invalidate? ==> ok && slot == old(slot) && plan == Some(p)
      ensures slot.Some? && slot.value.content.Invalidate? ==> slot == old(slot)
      ensures calm ==> ok && slot == old(slot) && plan == Some(if slot.None? then Unbound(p) else p)
    {
      RunKeepsInv(log);
      Others();
      Advance(Look);
      ok := true;
      if slot.None? && (p.invalidationId.Some? || p.invalidationHash.Some?) {
        ok := StorePlan(p, Unbind);
      }
    }

    /** Unbinds the plan from an operation that is gone, prepares, and binds the plan; bails
        when the plan is bound to another operation than the slot's. */
    method BindInvalidation(p: Plan, config: nat) returns (bound: bool, outcome: Outcome)
      requires Has(p) && p.phase.Invalidating?
      modifies `plan, `slot, `nextId, `world, `log
      ensures Valid() && plan.Some? && SamePlan(plan.value, p) && plan.value.phase.Invalidating?
      ensures bound ==> Bound(world, plan.value) && HoldsInvalidation(world, plan.value)
      ensures !bound && outcome.JournalsDisagree? ==> Mismatch(world)
      ensures calm && !bound && outcome.JournalsDisagree? ==> Mismatch(old(world))
      ensures !bound ==> outcome.JournalsDisagree? || outcome.SlotBusy? || outcome.Interrupted?
      ensures Mismatch(old(world)) ==>
                !bound && plan == old(plan) && slot == old(slot) && outcome == DisagreeingOutcome(p.epoch, slot, config)
      ensures calm ==> (bound <==> !Mismatch(old(world)) && Free(old(slot), p.epoch, config))
      ensures calm && !bound && !Mismatch(old(world)) ==> outcome.SlotBusy?
    {
      RunKeepsInv(log);
      var ok := UnbindIfGone(p);
      if !ok { return false, Interrupted; }
      var q := plan.value;
      RunKeepsInv(log);
      var entry;
      entry, outcome := PrepareInvalidation(q, config);
      if entry.None? {
        outcome := if outcome.SlotBusy? then SlotBusy else Interrupted;
        return false, outcome;
      }
      bound, outcome := BindTo(q, entry.value);
    }

    method BindTo(p: Plan, entry: Entry) returns (bound: bool, outcome: Outcome)
      requires Has(p) && p.phase.Invalidating? && slot == Some(entry) && HoldsInvalidation(world, p)
      requires !world.observed.NotLooked? && !world.observed.Heard?
      modifies `plan, `nextId, `world, `log
      ensures Valid() && plan.Some? && SamePlan(plan.value, p) && plan.value.phase.Invalidating?
      ensures bound ==> Bound(world, plan.value) && HoldsInvalidation(world, plan.value)
      ensures !bound ==>
                plan == Some(p)
                && (if Mismatch(old(world)) then outcome.JournalsDisagree? else outcome.Interrupted?)
      ensures Mismatch(old(world)) ==> !bound && world == old(world)
      ensures calm ==> (bound <==> !Mismatch(old(world)))
    {
      RunKeepsInv(log);
      if p.invalidationId.None? && p.invalidationHash.None? {
        bound := StorePlan(p, Bind);
        outcome := Interrupted;
      } else {
        bound := p.invalidationId == Some(entry.id) && p.invalidationHash == Some(Sha256(entry));
        outcome := JournalsDisagree;
      }
    }

    /** A wrapper id is durable before it is used. */
    method NameWrapper(p: Plan) returns (ok: bool)
      requires Has(p) && p.phase.Invalidating? && Bound(world, p) && HoldsInvalidation(world, p)
      modifies `plan, `slot, `nextId, `world, `log
      ensures Valid() && plan.Some? && SamePlan(plan.value, p) && plan.value.phase.Invalidating?
      ensures Bound(world, plan.value) && HoldsInvalidation(world, plan.value) && slot == old(slot)
      ensures ok ==> plan.value.wrapperId.Some?
      ensures calm ==> ok
    {
      ok := true;
      if p.wrapperId.None? {
        ok := StorePlan(p, NeedWrapperId);
        Others();
      }
    }

    /** Sends the wrapped operation under its durable wrapper id and hears the answer. */
    method SendInvalidation(p: Plan, verdict: Verdict) returns (ok: bool)
      requires Has(p) && p.phase.Invalidating? && Bound(world, p) && HoldsInvalidation(world, p)
      modifies `plan, `slot, `nextId, `world, `log
      ensures Valid() && plan.Some? && SamePlan(plan.value, p) && plan.value.phase.Invalidating?
      ensures ok ==> Bound(world, plan.value) && HoldsInvalidation(world, plan.value) && slot == old(slot)
      ensures ok && !verdict.Unknown? && !verdict.InProgress? ==>
                world.observed.Heard? && slot.value.id in world.answered
      ensures ok && verdict.TerminalSucceeded? && verdict.epoch == p.epoch ==>
                (p.epoch, verdict.notBefore) in world.succeeded
      ensures calm ==> ok
    {
      ok := NameWrapper(p);
      if !ok { return; }
      RunKeepsInv(log);
      Advance(SendControl);
      Others();
      if !verdict.Unknown? && !verdict.InProgress? {
        Advance(Answered(if verdict.TerminalSucceeded? && verdict.epoch == p.epoch
                         then Some(verdict.notBefore) else None));
      }
    }

    /** The plan lets go of a refused or failed operation, then the slot does. */
    method GiveUpOperation(p: Plan, settles: bool) returns (ok: bool)
      requires Has(p) && p.phase.Invalidating? && HoldsInvalidation(world, p)
      requires world.observed.Heard? && slot.value.id in world.answered
      modifies `plan, `slot, `nextId, `world, `log
      ensures Valid() && plan.Some? && SamePlan(plan.value, p) && plan.value.phase.Invalidating?
      ensures ok ==> plan == Some(Unbound(p)) && (if settles then slot.None? else slot == old(slot))
      ensures calm ==> ok
    {
      ok := StorePlan(p, Unbind);
      if !ok { return; }
      Others();
      if settles {
        ok := SettleSlot(Unbound(p));
      }
    }

    /** The slot lets go first, so that a new key necessarily signs a new operation. */
    method RecoverIdentity(p: Plan, secret: bool, installs: bool) returns (again: bool, outcome: Outcome)
      requires Has(p) && p.phase.Invalidating? && HoldsInvalidation(world, p)
      requires world.observed.Heard? && slot.value.id in world.answered
      modifies `plan, `slot, `nextId, `world, `log
      ensures Valid() && plan.Some? && SamePlan(plan.value, p) && plan.value.phase.Invalidating?
      ensures again ==> plan == Some(Unbound(p))
      ensures again ==> secret && installs
      ensures outcome.TargetFailed? || outcome.Interrupted? || outcome.NeedsSecret?
      ensures outcome.NeedsSecret? ==> !secret && !HoldsInvalidation(world, p)
      ensures calm ==>
                && slot.None? && (again <==> secret && installs)
                && (!again ==> outcome == if secret then TargetFailed else NeedsSecret)
    {
      outcome := Interrupted;
      again := SettleSlot(p);
      if !again { return; }
      Others();
      if !secret { return false, NeedsSecret; }
      again := StorePlan(p, Unbind);
      if !again { return; }
      again := installs;
      outcome := TargetFailed;
    }

    /** Stores the deadline, then settles. */
    method AcceptDeadline(p: Plan, notBefore: int) returns (ok: bool)
      requires Has(p) && p.phase.Invalidating? && Bound(world, p) && HoldsInvalidation(world, p)
      requires world.observed.Heard? && slot.value.id in world.answered && (p.epoch, notBefore) in world.succeeded
      modifies `plan, `slot, `nextId, `world, `log
      ensures Valid() && plan.Some? && SamePlan(plan.value, p)
      ensures ok ==> plan.value.phase.WaitingForDeadline? && plan.value.notBefore == Some(notBefore) && slot.None?
      ensures calm ==> ok
    {
      ok := StorePlan(p, RecordDeadline(notBefore));
      if !ok { return; }
      Others();
      ok := SettleSlot(plan.value);
    }

    /** What the answer to the invalidation has left behind, where it ends the command: a plain
        refusal or a failure lets go of the operation in the plan and in the slot, a conflict
        in the plan only, and without a final answer both keep it. */
    ghost predicate LeftAs(outcome: Outcome) reads this {
      plan.Some? &&
      match outcome
      case InvalidationRefused(conflict) =>
        && plan.value == Unbound(plan.value)
        && (if conflict then HoldsInvalidation(world, plan.value) else slot.None?)
      case InvalidationFailed => plan.value == Unbound(plan.value) && slot.None?
      case InvalidationUnfinished => Bound(world, plan.value) && HoldsInvalidation(world, plan.value)
      case NeedsSecret => !HoldsInvalidation(world, plan.value)
      case Recovered => false
      case _ => true
    }

    /** One turn of the invalidation loop. `Again`: a new identity was installed. */
    method InvalidateOnce(p: Plan, config: nat, verdict: Verdict, secret: bool, remote: Remote) returns (turn: Turn)
      requires Has(p) && p.phase.Invalidating?
      modifies `plan, `slot, `nextId, `world, `log
      ensures Valid() && plan.Some? && SamePlan(plan.value, p)
      ensures turn.Waits? ==>
                && plan.value.phase.WaitingForDeadline? && slot.None? && plan.value.notBefore == Some(turn.notBefore)
                && verdict == TerminalSucceeded(p.epoch, turn.notBefore)
      ensures turn.Again? ==>
                && plan.value.phase.Invalidating? && plan.value == Unbound(plan.value)
                && verdict.Unauthorized? && secret && (calm ==> slot.None?)
      ensures turn.Ends? ==> LeftAs(turn.outcome) && Told(turn.outcome, [verdict])
      ensures turn.Ends? && turn.outcome.JournalsDisagree? ==> Mismatch(world) && (calm ==> Mismatch(old(world)))
      ensures Mismatch(old(world)) ==>
                && turn.Ends? && plan == old(plan) && slot == old(slot)
                && (turn.outcome == DisagreeingOutcome(p.epoch, slot, config) || turn.outcome.TargetFailed?)
      ensures turn == Ends(NeedsSecret) ==> !secret
      ensures calm && remote.inspect && !Mismatch(old(world)) ==>
                turn == if Free(old(slot), p.epoch, config) then Reaction(verdict, p.epoch, secret, remote.identity)
                        else Ends(SlotBusy)
    {
      if !remote.inspect { return Ends(TargetFailed); }
      var bound, outcome := BindInvalidation(p, config);
      if !bound { return Ends(outcome); }
      var ok := SendInvalidation(plan.value, verdict);
      if !ok { return Ends(Interrupted); }
      turn := React(plan.value, verdict, secret, remote.identity);
    }

    /** Settles the answer, in the plan and in the slot. */
    method React(p: Plan, verdict: Verdict, secret: bool, identity: bool) returns (turn: Turn)
      requires Has(p) && p.phase.Invalidating? && Bound(world, p) && HoldsInvalidation(world, p)
      requires !verdict.Unknown? && !verdict.InProgress? ==> world.observed.Heard? && slot.value.id in world.answered
      requires verdict.TerminalSucceeded? && verdict.epoch == p.epoch ==>
                 (p.epoch, verdict.notBefore) in world.succeeded
      modifies `plan, `slot, `nextId, `world, `log
      ensures Valid() && plan.Some? && SamePlan(plan.value, p)
      ensures turn.Waits? ==>
                && plan.value.phase.WaitingForDeadline? && slot.None? && plan.value.notBefore == Some(turn.notBefore)
                && verdict == TerminalSucceeded(p.epoch, turn.notBefore)
      ensures turn.Again? ==>
                && plan.value.phase.Invalidating? && plan.value == Unbound(plan.value)
                && verdict.Unauthorized? && secret && (calm ==> slot.None?)
      ensures turn.Ends? ==>
                LeftAs(turn.outcome) && Told(turn.outcome, [verdict])
                && !turn.outcome.JournalsDisagree? && !turn.outcome.SlotBusy?
      ensures turn == Ends(NeedsSecret) ==> !secret
      ensures calm ==> turn == Reaction(verdict, p.epoch, secret, identity)
    {
      match verdict {
        case Unauthorized =>
          var again, outcome := RecoverIdentity(p, secret, identity);
          turn := if again then Again else Ends(outcome);
        case Refused(conflict) =>
          var ok := GiveUpOperation(p, !conflict);
          turn := Ends(if ok then InvalidationRefused(conflict) else Interrupted);
        case Unknown => turn := Ends(InvalidationUnfinished);
        case InProgress => turn := Ends(InvalidationUnfinished);
        case TerminalFailed =>
          var ok := GiveUpOperation(p, true);
          turn := Ends(if ok then InvalidationFailed else Interrupted);
        case TerminalSucceeded(epoch, notBefore) =>
          if epoch != p.epoch { return Ends(TargetFailed); }
          var ok := AcceptDeadline(p, notBefore);
          turn := if ok then Waits(notBefore) else Ends(Interrupted);
      }
    }

    /** `while Invalidating`. `verdicts` are the target's answers during this run; when they
        run out no further answer arrives. */
    method InvalidateSessions(p: Plan, config: nat, verdicts: seq<Verdict>, secret: bool, remote: Remote)
      returns (turn: Turn)
      requires Has(p) && p.phase.Invalidating?
      modifies `plan, `slot, `nextId, `world, `log
      ensures Valid() && plan.Some? && SamePlan(plan.value, p) && !turn.Again?
      ensures turn.Waits? ==>
                && plan.value.phase.WaitingForDeadline? && slot.None? && plan.value.notBefore == Some(turn.notBefore)
                && TerminalSucceeded(p.epoch, turn.notBefore) in verdicts
      ensures turn.Ends? ==> LeftAs(turn.outcome) && Told(turn.outcome, verdicts)
      ensures turn.Ends? && turn.outcome.JournalsDisagree? ==> Mismatch(world) && (calm ==> Mismatch(old(world)))
      ensures Mismatch(old(world)) ==>
                && turn.Ends? && plan == old(plan) && slot == old(slot)
                && (turn.outcome == DisagreeingOutcome(p.epoch, slot, config) || turn.outcome.TargetFailed?)
      ensures turn == Ends(NeedsSecret) ==> !secret
      ensures calm && remote.inspect && !Mismatch(old(world)) ==>
                turn == if Free(old(slot), p.epoch, config) then Reactions(verdicts, p.epoch, secret, remote.identity)
                        else Ends(SlotBusy)
    {
      var i := 0;
      turn := Again;
      while turn.Again?
        invariant Valid() && plan.Some? && SamePlan(plan.value, p)
        invariant turn.Again? ==> plan.value.phase.Invalidating? && i <= |verdicts|
        invariant turn.Waits? ==>
                    && plan.value.phase.WaitingForDeadline? && slot.None?
                    && plan.value.notBefore == Some(turn.notBefore)
                    && TerminalSucceeded(p.epoch, turn.notBefore) in verdicts
        invariant turn.Ends? ==> LeftAs(turn.outcome) && Told(turn.outcome, verdicts)
        invariant turn.Ends? && turn.outcome.JournalsDisagree? ==> Mismatch(world)
        invariant (turn.Again? && Mismatch(world)) || turn == Ends(JournalsDisagree) ==> calm ==> Mismatch(old(world))
        invariant i == 0 ==> turn.Again? && world == old(world)
        invariant i > 0 && turn.Again? ==> plan.value == Unbound(plan.value) && (calm ==> slot.None?)
        invariant i > 0 && Mismatch(old(world)) ==>
                    && turn.Ends? && plan == old(plan) && slot == old(slot)
                    && (turn.outcome == DisagreeingOutcome(p.epoch, slot, config) || turn.outcome.TargetFailed?)
        invariant turn == Ends(NeedsSecret) ==> !secret
        invariant calm && remote.inspect && !Mismatch(old(world)) ==>
                    if !Free(old(slot), p.epoch, config) then turn == Ends(SlotBusy) || i == 0
                    else Reactions(verdicts, p.epoch, secret, remote.identity)
                         == if turn.Again? then Reactions(verdicts[i..], p.epoch, secret, remote.identity) else turn
        decreases if turn.Again? then |verdicts| - i + 1 else 0
      {
        var verdict := if i < |verdicts| then verdicts[i] else Unknown;
        turn := InvalidateOnce(plan.value, config, verdict, secret, remote);
        i := i + 1;
      }
    }

    // ------------------------------------------------------------ activation

    /** Sleeps until a reading of the clock is past the deadline. A process that runs out of
        readings was killed in its sleep. */
    method AwaitDeadline(notBefore: int, clock: seq<int>) returns (now: Option<int>)
      ensures now.Some? ==> now.value in clock && notBefore < now.value
      ensures now.None? <==> forall reading :: reading in clock ==> reading <= notBefore
    {
      var i := 0;
      while i < |clock| && clock[i] <= notBefore
        invariant 0 <= i <= |clock|
        invariant forall k :: 0 <= k < i ==> clock[k] <= notBefore
      {
        i := i + 1;
      }
      now := if i < |clock| then Some(clock[i]) else None;
    }

    /** Sends the activation under its durable id and records that it happened. */
    method Activate(p: Plan, now: int, activates: bool) returns (ok: bool, outcome: Outcome)
      requires Has(p) && Enabled(world, SendActivate(now))
      modifies `plan, `slot, `nextId, `world, `log
      ensures Valid() && plan.Some? && SamePlan(plan.value, p)
      ensures outcome.Interrupted? || outcome.TargetFailed?
      ensures calm ==> slot == old(slot)
      ensures !MustSettle(world, plan.value)
      ensures Activation(p.epoch, p.notBefore.value, now) in world.activations
      ensures ok ==> plan.value.phase.CleanupPending? && activates
      ensures calm ==> (ok <==> activates)
    {
      Advance(SendActivate(now));
      ok, outcome := activates, TargetFailed;
      if !ok { return; }
      Others();
      ok := StorePlan(p, RecordActivated);
      outcome := Interrupted;
    }

    /** Waits until the clock has passed the deadline, then activates. */
    method ActivateAfterDeadline(p: Plan, clock: seq<int>, activates: bool) returns (ok: bool, outcome: Outcome)
      requires Has(p) && p.phase.WaitingForDeadline? && !MustSettle(world, p)
      modifies `plan, `slot, `nextId, `world, `log
      ensures Valid() && plan.Some? && SamePlan(plan.value, p)
      ensures outcome.Interrupted? || outcome.TargetFailed?
      ensures calm ==> slot == old(slot)
      ensures !MustSettle(world, plan.value)
      ensures ok ==>
                && plan.value.phase.CleanupPending? && p.notBefore.Some? && activates
                && exists now :: now in clock && Activation(p.epoch, p.notBefore.value, now) in world.activations
                                 && p.notBefore.value < now
      ensures p.notBefore.Some?
      ensures calm ==> (ok <==> activates && Passes(clock, p.notBefore.value))
    {
      RunKeepsInv(log);
      outcome := Interrupted;
      var now := AwaitDeadline(p.notBefore.value, clock);
      if now.None? { return false, Interrupted; }
      if p.activateId.None? {
        ok := StorePlan(p, NeedActivateId);
        if !ok { return; }
        Others();
      }
      ok, outcome := Activate(plan.value, now.value, activates);
    }

    /** Removes the candidate under a durable id, and then the plan. */
    method CleanUp(p: Plan, cleans: bool) returns (outcome: Outcome)
      requires Has(p) && p.phase.CleanupPending? && !MustSettle(world, p)
      modifies `plan, `slot, `nextId, `world, `log
      ensures Valid() && world.activations == old(world).activations
      ensures outcome.Recovered? ==> plan.None? && cleans
      ensures calm ==> outcome == if cleans then Recovered else TargetFailed
      ensures outcome.Recovered? || outcome.Interrupted? || outcome.TargetFailed?
      ensures calm ==> slot == old(slot)
      ensures plan.Some? ==> SamePlan(plan.value, p)
    {
      RunKeepsInv(log);
      if p.cleanupId.None? {
        var ok := StorePlan(p, NeedCleanupId);
        if !ok { return Interrupted; }
        Others();
      }
      if !cleans { return TargetFailed; }
      Others();
      var gone := ForgetPlan(plan.value);
      outcome := if gone then Recovered else Interrupted;
    }

    method ForgetPlan(p: Plan) returns (ok: bool)
      requires Has(p) && p.phase.CleanupPending? && p.cleanupId.Some? && !MustSettle(world, p)
      modifies `plan, `world, `log
      ensures Valid() && world.activations == old(world).activations && (calm ==> ok)
      ensures plan == if ok then None else Some(p)
    {
      var io := Attempt(calm);
      ok := io.Done?;
      if ok {
        Runs.Extend(MACHINE, log, Forget);
        world, log := Apply(world, Forget), log + [Forget];
        plan := None;
      }
    }

    // --------------------------------------------------------------- command

    /** Loads the stored plan or stores a new one for a restore-tested snapshot. */
    method OpenPlan(deployment: string, sourceRevision: nat, manifest: Option<string>)
      returns (ok: bool, outcome: Outcome)
      requires Valid()
      modifies `plan, `nextId, `world, `log
      ensures Valid() && (ok <==> plan.Some?)
      ensures old(plan).Some? ==> ok && world == old(world)
      ensures old(plan).None? && ok ==>
                manifest.Some? && plan == Some(NewPlan(deployment, sourceRevision, manifest.value, old(nextId)))
      ensures calm ==> (ok <==> Opens(old(plan), deployment, manifest))
      ensures outcome.Interrupted? || outcome.NoSnapshot?
      ensures old(world.observed).NotLooked? ==> world.observed.NotLooked?
    {
      outcome := Interrupted;
      if plan.Some? { return true, Interrupted; }
      if manifest.None? { return false, NoSnapshot; }
      var p := NewPlan(deployment, sourceRevision, manifest.value, nextId);
      var io := Attempt(calm);
      if !ValidPlan(p) || !io.Done? { return false, Interrupted; }
      ghost var s := Open(deployment, sourceRevision, manifest.value);
      Runs.Extend(MACHINE, log, s);
      world, log := Apply(world, s), log + [s];
      plan, nextId := Some(p), nextId + 2;
      ok := true;
    }

    /** A different requested version removes the candidate and starts over. */
    method ChangeVersion(p: Plan, version: string, cleans: bool) returns (ok: bool)
      requires Has(p) && p.version != Some(version) && world.observed.NotLooked?
      modifies `plan, `slot, `nextId, `world, `log
      ensures Valid() && plan.Some? && plan.value.epoch == p.epoch && plan.value.restored == p.restored
      ensures world.observed.NotLooked?
      ensures ok ==> plan == Some(Reset(p, version)) && (p.candidate.Some? ==> cleans)
      ensures calm ==> slot == old(slot) && (ok <==> p.candidate.None? || cleans)
    {
      var q := p;
      ok := true;
      if p.candidate.Some? {
        if p.cleanupId.None? {
          ok := StorePlan(p, NeedCleanupId);
          if !ok { return; }
          q := plan.value;
          Others();
        }
        if !cleans { return false; }
        Others();
      }
      ok := StorePlan(q, StartOver(version));
    }

    /** Restores the snapshot and stages a candidate, as far as the plan still needs it. */
    method RestoreAndStage(p: Plan, candidate: Candidate, remote: Remote) returns (ok: bool, outcome: Outcome)
      requires Has(p)
      modifies `plan, `slot, `nextId, `world, `log
      ensures Valid() && plan.Some? && SamePlan(plan.value, p)
      ensures outcome.Interrupted? || outcome.TargetFailed?
      ensures ok ==> plan.value.candidate.Some? && !plan.value.phase.Restoring?
      ensures p.candidate.Some? ==> ok && world == old(world)
      ensures p.candidate.None? ==> !Mismatch(world) && (ok ==> plan.value.phase.Invalidating?)
      ensures p.candidate.None? && ok ==>
                && plan.value.candidate == Some(candidate) && plan.value.restored == Some(p.sourceRevision + 1)
                && remote.stage && (p.restored.None? ==> remote.restore)
      ensures calm ==> slot == old(slot)
      ensures calm && p.candidate.None? ==>
                (ok <==> (p.restored.Some? || remote.restore) && remote.stage && ValidCandidate(candidate))
    {
      RunKeepsInv(log);
      outcome := Interrupted;
      if p.candidate.Some? { return true, Interrupted; }
      var q := p;
      if p.restored.None? {
        if !remote.restore { return false, TargetFailed; }
        Others();
        ok := StorePlan(p, RecordRestored);
        if !ok { return; }
        q := plan.value;
      }
      ok, outcome := StageCandidate(q, candidate, remote.stage);
    }

    method StageCandidate(p: Plan, candidate: Candidate, stages: bool) returns (ok: bool, outcome: Outcome)
      requires Has(p) && p.candidate.None? && p.restored.Some? && p.phase.Restoring?
      modifies `plan, `slot, `nextId, `world, `log
      ensures Valid() && plan.Some? && SamePlan(plan.value, p) && !Mismatch(world)
      ensures outcome.Interrupted? || outcome.TargetFailed?
      ensures ok ==>
                && plan.value.candidate == Some(candidate) && plan.value.phase.Invalidating? && stages
                && plan.value.restored == p.restored
                && candidate.reference != "" && candidate.objectId != "" && candidate.port != 0
      ensures calm ==>
                && slot == old(slot)
                && (ok <==> stages && candidate.reference != "" && candidate.objectId != "" && candidate.port != 0)
    {
      RunKeepsInv(log);
      var q := p;
      outcome := Interrupted;
      if p.stageId.None? {
        ok := StorePlan(p, NeedStageId);
        if !ok { return; }
        q := plan.value;
      }
      if !stages { return false, TargetFailed; }
      Others();
      // The journal refuses to store an ill-formed endpoint.
      if !ValidCandidate(candidate) { return false, TargetFailed; }
      ok := StorePlan(q, RecordCandidate(candidate));
    }

    /** From a staged candidate to the end. */
    method Finish(p: Plan, config: nat, verdicts: seq<Verdict>, secret: bool, clock: seq<int>, remote: Remote)
      returns (outcome: Outcome)
      requires Has(p) && !p.phase.Restoring? && !MustSettle(world, p)
      modifies `plan, `slot, `nextId, `world, `log
      ensures Valid() && (outcome.Recovered? ==> plan.None?)
      ensures outcome.JournalsDisagree? ==> Mismatch(world) && (calm ==> Mismatch(old(world)))
      ensures Mismatch(old(world)) ==>
                && plan == old(plan) && slot == old(slot)
                && (outcome == DisagreeingOutcome(p.epoch, slot, config) || outcome.TargetFailed?)
      ensures calm && outcome.Recovered? ==> slot == if p.phase.Invalidating? then None else old(slot)
      ensures outcome.Recovered? && !p.phase.CleanupPending? ==>
                exists a :: a in world.activations && a.epoch == p.epoch && a.sentAt in clock && a.notBefore < a.sentAt
      ensures outcome.NeedsSecret? ==> !secret
      ensures Reports(outcome) ==> LeftAs(outcome) && Told(outcome, verdicts)
      ensures outcome.Recovered? ==> remote.cleanup
      ensures calm && remote.inspect && !Mismatch(old(world))
              && (p.phase.Invalidating? ==> Free(old(slot), p.epoch, config)) ==>
                EndsAs(outcome, p, Reactions(verdicts, p.epoch, secret, remote.identity), clock, remote)
      ensures plan.Some? ==> SamePlan(plan.value, p)
    {
      var q := p;
      if q.phase.Invalidating? {
        var turn := InvalidateSessions(q, config, verdicts, secret, remote);
        if turn.Ends? { return turn.outcome; }
        q := plan.value;
      }
      if q.phase.WaitingForDeadline? {
        var ok;
        ok, outcome := ActivateAfterDeadline(q, clock, remote.activate);
        if !ok { return; }
        q := plan.value;
      }
      outcome := CleanUp(q, remote.cleanup);
    }

    /** The stored plan or a new one, at the requested version if there is one. */
    method OpenVersion(deployment: string, sourceRevision: nat, manifest: Option<string>, requested: Option<string>,
                       cleans: bool)
      returns (ok: bool, outcome: Outcome)
      requires Valid() && world.observed.NotLooked?
      modifies `plan, `slot, `nextId, `world, `log
      ensures Valid() && world.observed.NotLooked?
      ensures outcome.Interrupted? || outcome.NoSnapshot?
      ensures ok ==> plan.Some?
      ensures plan.None? ==> !ok && old(plan).None?
      ensures ok && requested.Some? ==> plan.value.version == requested
      ensures ok && old(plan).Some? ==> plan.value.epoch == old(plan).value.epoch
      ensures ok ==>
                if old(plan).Some? && (requested.None? || old(plan).value.version == requested) then world == old(world)
                else plan.value.phase.Restoring? && plan.value.candidate.None?
      ensures old(plan).Some? && (requested.None? || old(plan).value.version == requested) ==> ok
      ensures requested.Some? && plan.Some? && !ok ==> outcome.Interrupted?
      ensures calm ==>
                && slot == old(slot)
                && (cleans && Opens(old(plan), deployment, manifest) ==> ok)
                && (ok && old(plan).None? ==> plan.value.epoch == old(nextId))
    {
      RunKeepsInv(log);
      ok, outcome := OpenPlan(deployment, sourceRevision, manifest);
      if !ok { return; }
      if requested.Some? && plan.value.version != requested {
        ok := ChangeVersion(plan.value, requested.value, cleans);
        outcome := Interrupted;
      }
    }

    /** From the stored plan, or a new one, to a staged candidate of the requested version. */
    method ReachCandidate(deployment: string, sourceRevision: nat, manifest: Option<string>,
                          requested: Option<string>, candidate: Candidate, remote: Remote)
      returns (ok: bool, outcome: Outcome)
      requires Valid() && world.observed.NotLooked?
      modifies `plan, `slot, `nextId, `world, `log
      ensures Valid() && (ok && Mismatch(world) ==> Mismatch(old(world)))
      ensures outcome.Interrupted? || outcome.TargetFailed? || outcome.NoSnapshot?
      ensures ok ==> plan.Some? && !plan.value.phase.Restoring? && !MustSettle(world, plan.value)
      ensures plan.None? ==> !ok && old(plan).None?
      ensures ok && old(plan).Some? ==> plan.value.epoch == old(plan).value.epoch
      ensures (old(plan).Some? && !old(plan).value.phase.Restoring?
               && (requested.None? || old(plan).value.version == requested)) ==> ok && world == old(world)
      ensures ok && !Resumes(old(plan), requested) ==> plan.value.phase.Invalidating?
      ensures requested.Some? && plan.Some? && (ok || !outcome.Interrupted?) ==> plan.value.version == requested
      ensures ok && !(old(plan).Some? && old(plan).value.candidate.Some?) ==> plan.value.candidate == Some(candidate)
      ensures calm ==>
                && slot == old(slot)
                && (Willing(remote) && ValidCandidate(candidate) && Opens(old(plan), deployment, manifest) ==> ok)
                && (ok && old(plan).None? ==> plan.value.epoch == old(nextId))
    {
      RunKeepsInv(log);
      ok, outcome := OpenVersion(deployment, sourceRevision, manifest, requested, remote.cleanup);
      if !ok { return; }
      RunKeepsInv(log);
      ok, outcome := RestoreAndStage(plan.value, candidate, remote);
    }

    /** `recover`. It completes only after an activation that its own epoch's deadline allowed.
        Alone on the machine it bails over disagreeing journals only if they disagreed before;
        and if they did, then unless another version is requested it never gets further, alone
        or not, and changes neither of the two. Alone on the machine, too, a completed recovery
        leaves its invalidation in the control slot if and only if it found the answer stored
        and the slot still occupied. */
    method RunRecover(deployment: string, sourceRevision: nat, manifest: Option<string>, requested: Option<string>,
                      candidate: Candidate, config: nat, verdicts: seq<Verdict>, secret: bool, clock: seq<int>,
                      remote: Remote)
      returns (outcome: Outcome)
      requires Valid()
      modifies this
      ensures Valid() && (outcome.Recovered? ==> plan.None?)
      ensures outcome.JournalsDisagree? ==> Mismatch(world) && (calm ==> Mismatch(old(world)))
      ensures Mismatch(old(world)) && (requested.None? || old(plan).value.version == requested) ==>
                && plan == old(plan) && slot == old(slot)
                && (outcome.TargetFailed? || outcome == DisagreeingOutcome(plan.value.epoch, slot, config))
      ensures requested.Some? && plan.Some? && !outcome.Interrupted? ==> plan.value.version == requested
      ensures outcome.NeedsSecret? ==> !secret
      ensures calm && outcome.Recovered? ==> slot == if Resumes(old(plan), requested) then old(slot) else None
      ensures calm && outcome.Recovered? ==>
                (LeftBehind(world) <==>
                   Resumes(old(plan), requested) && old(slot).Some? && old(slot).value.content.Invalidate?)
      ensures outcome.Recovered? && old(plan).Some? && !old(plan).value.phase.CleanupPending? ==>
                exists a :: a in world.activations && a.epoch == old(plan).value.epoch
                            && a.sentAt in clock && a.notBefore < a.sentAt
      ensures Reports(outcome) ==> LeftAs(outcome) && Told(outcome, verdicts)
      ensures calm && remote.inspect && old(plan).Some? && (requested.None? || old(plan).value.version == requested)
              && !Mismatch(old(world))
              && (old(plan).value.phase.Invalidating? ==> Free(old(slot), old(plan).value.epoch, config)) ==>
                EndsAs(outcome, old(plan).value,
                       Reactions(verdicts, old(plan).value.epoch, secret, remote.identity), clock, remote)
      ensures calm && Willing(remote) && ValidCandidate(candidate) && Opens(old(plan), deployment, manifest)
              && old(slot).None? ==>
                var epoch := if old(plan).Some? then old(plan).value.epoch else old(nextId);
                Resumes(old(plan), requested) ||
                EndsWith(outcome, Reactions(verdicts, epoch, secret, true), clock, remote)
    {
      // Whatever process ran before is gone.
      Advance(Crash);
      RunKeepsInv(log);
      var ok;
      ok, outcome := ReachCandidate(deployment, sourceRevision, manifest, requested, candidate, remote);
      if !ok { return; }
      outcome := Finish(plan.value, config, verdicts, secret, clock, remote);
    }
  }
}
