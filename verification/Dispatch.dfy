/** One instance's operation journal and the commands that use it. Each journal method
    holds the key lock from its load to its write; between two of them other processes run. */
module Dispatch {
  import opened Prelude
  import opened DispatchModel
  import opened DispatchSafety
  import Runs

  datatype Preparation = ToSend(prepared: Prepared) | SlotBusy | Refused | NothingPending | Interrupted

  class Instance {
    // No other process runs and no write of this class fails.
    const calm: bool
    var slot: Option<Entry>
    var activeKid: Kid
    var nextId: Id
    var results: set<ControlResult>
    ghost var world: World
    ghost var log: seq<Step>

    ghost predicate Valid() reads this {
      && Runs.IsRun(MACHINE, log) && Runs.After(MACHINE, log) == world
      && world.slot == slot && world.activeKid == activeKid && world.nextId == nextId
      && world.results == results
    }

    /** This process is at `progress`, and the files are in a state some run leaves. */
    ghost predicate IsAt(pid: Pid, progress: Progress) reads this {
      Valid() && At(world, pid) && world.processes[pid] == progress
    }

    ghost predicate IsIdle(pid: Pid) reads this {
      Valid() && !At(world, pid)
    }

    constructor (calm: bool)
      ensures Valid() && world == FRESH && this.calm == calm
    {
      this.calm := calm;
      slot, activeKid, nextId, results := None, 0, 0, {};
      world, log := FRESH, [];
    }

    /** Other processes run, crash and rotate keys. */
    method Others(ghost pid: Pid)
      requires Valid()
      modifies this
      ensures Valid() && At(world, pid) == old(At(world, pid))
      ensures At(world, pid) ==> world.processes[pid] == old(world.processes)[pid]
      ensures old(results) <= results && old(world.cleared) <= world.cleared && old(nextId) <= nextId
      ensures calm ==> world == old(world)
    {
    }

    /** A step of this process that touches no file. */
    ghost method Advance(s: Step)
      requires Valid() && Enabled(world, s)
      requires s.Observe? || s.Resume? || s.Send? || s.Answer? || s.Stop?
      modifies `world, `log
      ensures Valid() && world == Apply(old(world), s)
    {
      Runs.Extend(MACHINE, log, s);
      world, log := Apply(world, s), log + [s];
    }

    // ------------------------------------------- the journal, one lock a method

    /** `record_dispatched` */
    method RecordDispatched(ghost pid: Pid, p: Prepared) returns (ok: bool)
      requires IsAt(pid, Signed(p))
      modifies `slot, `world, `log
      ensures if ok then IsAt(pid, Ready(p)) && Some(slot) == Recorded(old(slot), EntryOf(p)) && Holds(slot, p)
              else IsIdle(pid) && slot == old(slot)
      ensures calm ==> (ok <==> old(slot).None? || (Holds(old(slot), p) && old(slot).value.state.Dispatched?))
    {
      RunKeepsInv(log);
      assert ProgressInv(world, world.processes[pid]);
      ghost var step := Stop(pid);
      ok := false;
      match Recorded(slot, EntryOf(p)) {
        case None =>
        case Some(after) =>
          var io := Attempt(calm);
          if io.Done? {
            slot, ok, step := after, true, Record(pid);
          }
      }
      Runs.Extend(MACHINE, log, step);
      world, log := Apply(world, step), log + [step];
    }

    /** `mark_accepted_if_matches` */
    method MarkAcceptedIfMatches(ghost pid: Pid, p: Prepared, ghost verdict: Verdict)
      returns (ok: bool)
      requires IsAt(pid, Answered(p, verdict)) && (verdict.InProgressAccepted? || verdict.Terminal?)
      modifies `slot, `world, `log
      ensures world.cleared == old(world.cleared)
      ensures calm ==> slot == OrElse(Marked(old(slot), EntryOf(p)), old(slot))
      ensures calm ==> ok == Marked(old(slot), EntryOf(p)).Some?
      ensures ok ==> Some(slot) == Marked(old(slot), EntryOf(p))
      ensures ok && verdict.Terminal? ==> IsAt(pid, MarkedAccepted(p, verdict.result))
      ensures !ok || !verdict.Terminal? ==> IsIdle(pid)
      ensures !ok ==> slot == old(slot)
    {
      ghost var step := Stop(pid);
      ok := false;
      match Marked(slot, EntryOf(p)) {
        case None =>
        case Some(after) =>
          var io := Attempt(calm);
          if io.Done? {
            slot, ok, step := after, true, MarkAccepted(pid);
          }
      }
      Runs.Extend(MACHINE, log, step);
      world, log := Apply(world, step), log + [step];
    }

    /** `clear_if_matches` */
    method ClearIfMatches(ghost pid: Pid, p: Prepared) returns (ok: bool)
      requires Valid() && At(world, pid)
      requires Holds(slot, p) ==> ClearEnabled(world, world.processes[pid])
      requires !world.processes[pid].Observed? && world.processes[pid].prepared == p
      modifies `slot, `world, `log
      ensures IsIdle(pid)
      ensures calm ==> slot == OrElse(Cleared(old(slot), EntryOf(p)), old(slot))
      ensures calm ==> ok == Cleared(old(slot), EntryOf(p)).Some?
      ensures ok ==> slot.None? && p.operation.id in world.cleared && Holds(old(slot), p)
      ensures !ok ==> slot == old(slot)
    {
      ghost var step := Stop(pid);
      ok := false;
      match Cleared(slot, EntryOf(p)) {
        case None =>
        case Some(after) =>
          var io := Attempt(calm);
          if io.Done? {
            slot, ok, step := after, true, Clear(pid);
          }
      }
      Runs.Extend(MACHINE, log, step);
      world, log := Apply(world, step), log + [step];
    }

    // ----------------------------------------------------------- preparation

    /** `prepare_control_operation`: replays the journaled operation or signs a fresh one,
        which is journaled before it is returned. It never finds a foreign payload under a
        matching hash. */
    method Prepare(ghost pid: Pid, input: Input) returns (r: Preparation)
      requires IsIdle(pid)
      modifies this
      ensures r.ToSend? || r.SlotBusy? || r.Interrupted?
      ensures r.ToSend? ==>
                && IsAt(pid, Ready(r.prepared)) && Holds(slot, r.prepared)
                && r.prepared.operation.input == input && r.prepared.hash == Sha256(r.prepared.operation)
                && (if old(slot).Some? then slot == old(slot) && r.prepared.jws == old(slot).value.jws
                    else old(nextId) <= r.prepared.operation.id < nextId)
      ensures !r.ToSend? ==> IsIdle(pid)
      ensures r.SlotBusy? <==> old(slot).Some? && !r.ToSend?
      ensures calm ==> !r.Interrupted?
      ensures r.SlotBusy? ==> world == old(world) && ResumeEntry(slot.value, input).NotThisOperation?
    {
      if slot.Some? {
        r := Replay(pid, input);
        return if r.NothingPending? then SlotBusy else r;
      }
      Advance(Observe(pid, input));
      var p := SignFresh(pid, input);
      Others(pid);
      var recorded := RecordDispatched(pid, p);
      r := if recorded then ToSend(p) else Interrupted;
    }

    /** Signs under the active key and a new id, after reading that the slot was empty. */
    method SignFresh(ghost pid: Pid, input: Input) returns (p: Prepared)
      requires IsAt(pid, Observed(input))
      modifies this
      ensures IsAt(pid, Signed(p)) && p.operation.input == input && p.hash == Sha256(p.operation)
      ensures old(nextId) <= p.operation.id < nextId
      ensures calm ==> slot == old(slot)
    {
      Others(pid);
      var signature: nat := *;
      p := Sign(Operation(nextId, activeKid, input), signature);
      Runs.Extend(MACHINE, log, Step.SignFresh(pid, signature));
      world, log := Apply(world, Step.SignFresh(pid, signature)), log + [Step.SignFresh(pid, signature)];
      nextId := nextId + 1;
    }

    /** `prepare_entry_resume` on the entry just loaded. */
    method Replay(ghost pid: Pid, input: Input) returns (r: Preparation)
      requires IsIdle(pid) && slot.Some?
      modifies `world, `log
      ensures r.ToSend? || r.NothingPending?
      ensures r.ToSend? ==>
                && IsAt(pid, Ready(r.prepared)) && Holds(slot, r.prepared)
                && r.prepared.operation.input == input && r.prepared.hash == Sha256(r.prepared.operation)
                && r.prepared.jws == slot.value.jws
      ensures !r.ToSend? ==> IsIdle(pid) && world == old(world) && ResumeEntry(slot.value, input).NotThisOperation?
    {
      ResumeIsReplay(log, input, Sign(Operation(0, 0, input), 0));
      RunKeepsInv(log);
      match ResumeEntry(slot.value, input) {
        case NotThisOperation => r := NothingPending;
        case PayloadDiffers => r := Refused;
        case Resumed(p) =>
          Advance(Resume(pid, input));
          r := ToSend(p);
      }
    }

    /** `prepare_pending_control_operation`: never signs, and insists on the expected entry. */
    method PreparePending(ghost pid: Pid, expected: Entry, input: Input) returns (r: Preparation)
      requires IsIdle(pid)
      modifies `world, `log
      ensures r.ToSend? || r.NothingPending? || r.Refused?
      ensures r.Refused? <==> slot.Some? && !SameIdentity(slot.value, expected)
      ensures r.ToSend? ==>
                && slot.Some? && SameIdentity(slot.value, expected) && Holds(slot, r.prepared)
                && IsAt(pid, Ready(r.prepared)) && r.prepared.operation.input == input
      ensures !r.ToSend? ==> IsIdle(pid) && world == old(world)
    {
      if slot.None? { return NothingPending; }
      if !SameIdentity(slot.value, expected) { return Refused; }
      r := Replay(pid, input);
    }

    // ------------------------------------------------- exchange and settlement

    /** Sends the request, unless change-set material is missing or out of place; the target
        may answer anything, or nothing. */
    method Execute(ghost pid: Pid, p: Prepared, material: bool) returns (receipt: Option<Receipt>)
      requires IsAt(pid, Ready(p))
      modifies `world, `log
      ensures world.slot == old(world).slot
      ensures if p.operation.input.kind == TenantResourceApply <==> material
              then IsAt(pid, Waiting(p)) && world.sent == old(world).sent + {p}
              else receipt.None? && IsIdle(pid) && world.sent == old(world).sent
    {
      if !ChangeSetAllowed(p.operation.input.kind, material) {
        Advance(Stop(pid));
        return None;
      }
      Advance(Send(pid));
      receipt := *;
    }

    /** `dispatch_via_target` and then `settle_journal`. In calm it leaves exactly what `DispatchEffect` says. */
    method DispatchAndSettle(ghost pid: Pid, p: Prepared, receipt: Receipt, persists: bool)
      returns (ok: bool, persisted: Option<ControlResult>)
      requires IsAt(pid, Waiting(p))
      modifies this
      ensures IsIdle(pid)
      ensures calm ==> Effect(slot, persisted) == DispatchEffect(old(slot), p, receipt, persists)
      ensures calm && Holds(old(slot), p) && CarriesItsResult(p, receipt) && persists ==>
                slot.None? && persisted == receipt.result
      ensures persisted.Some? ==>
                persisted == receipt.result && CarriesItsResult(p, receipt) && persisted.value in results
      ensures ok && persisted.Some? ==> p.operation.id in world.cleared
      ensures calm && Holds(old(slot), p) && CarriesItsResult(p, receipt) ==> (ok <==> persists)
    {
      DispatchSettles(slot, p, receipt, persists);
      FitsItsOperation(p, receipt);
      match Classify(p, receipt) {
        case None =>
          Advance(Stop(pid));
          ok, persisted := false, None;
        case Some(verdict) =>
          Advance(Answer(pid, verdict));
          ok, persisted := Settle(pid, p, verdict, persists);
      }
    }

    /** `settle_journal` */
    method Settle(ghost pid: Pid, p: Prepared, verdict: Verdict, persists: bool)
      returns (ok: bool, persisted: Option<ControlResult>)
      requires IsAt(pid, Answered(p, verdict)) && VerdictBound(p, verdict)
      modifies this
      ensures IsIdle(pid)
      ensures calm ==> Effect(slot, persisted) == SettleEffect(old(slot), p, verdict, persists)
      ensures persisted.Some? ==>
                verdict.Terminal? && persisted == Some(verdict.result) && Bound(p, verdict.result)
                && verdict.result in results
      ensures ok && persisted.Some? ==> p.operation.id in world.cleared
      ensures calm ==>
                (ok <==> || verdict.OutcomeUnknown? || verdict == Rejected(OPERATION_ID_CONFLICT)
                         || (Holds(old(slot), p) && (verdict.Terminal? ==> persists)))
    {
      persisted := None;
      Others(pid);
      match verdict {
        case OutcomeUnknown =>
          Advance(Stop(pid));
          ok := true;
        case Rejected(code) =>
          if code == OPERATION_ID_CONFLICT {
            Advance(Stop(pid));
            ok := true;
          } else {
            ok := ClearIfMatches(pid, p);
          }
        case InProgressAccepted =>
          ok := MarkAcceptedIfMatches(pid, p, verdict);
        case Terminal(result) =>
          ok := MarkAcceptedIfMatches(pid, p, verdict);
          if ok {
            ok, persisted := PersistAndClear(pid, p, result, persists);
          }
      }
    }

    /** Makes the result durable, if the caller's callback can, and only then empties the slot. */
    method PersistAndClear(ghost pid: Pid, p: Prepared, result: ControlResult, persists: bool)
      returns (ok: bool, persisted: Option<ControlResult>)
      requires IsAt(pid, MarkedAccepted(p, result)) && Bound(p, result)
      modifies this
      ensures IsIdle(pid)
      ensures calm && Holds(old(slot), p) ==>
                Effect(slot, persisted) == (if persists then Effect(None, Some(result)) else Effect(old(slot), None))
      ensures persisted == if persists then Some(result) else None
      ensures persists ==> result in results
      ensures ok ==> persists && p.operation.id in world.cleared
      ensures calm && Holds(old(slot), p) ==> (ok <==> persists)
    {
      Others(pid);
      if !persists {
        Advance(Stop(pid));
        return false, None;
      }
      results := results + {result};
      Runs.Extend(MACHINE, log, PersistResult(pid));
      world, log := Apply(world, PersistResult(pid)), log + [PersistResult(pid)];
      Others(pid);
      ok := ClearIfMatches(pid, p);
      persisted := Some(result);
    }

    /** `complete_control_operation`: accepts first and reads the result afterwards. */
    method CompleteControlOperation(ghost pid: Pid, p: Prepared, receipt: Receipt, persists: bool)
      returns (ok: bool, persisted: Option<ControlResult>)
      requires IsAt(pid, Waiting(p))
      modifies this
      ensures IsIdle(pid)
      ensures calm ==> Effect(slot, persisted) == ConformanceEffect(old(slot), p, receipt, persists)
      ensures calm && Holds(old(slot), p) && CarriesItsResult(p, receipt) && persists ==>
                slot.None? && persisted == receipt.result
      ensures persisted.Some? ==>
                persisted == receipt.result && CarriesItsResult(p, receipt) && persisted.value in results
      ensures ok ==> persisted.Some? && p.operation.id in world.cleared
      ensures calm ==> (ok <==> persisted.Some?)
    {
      ConformanceSettles(slot, p, receipt, persists);
      FitsItsOperation(p, receipt);
      ok, persisted := false, None;
      Others(pid);
      if receipt.id != p.operation.id {
        Advance(Stop(pid));
      } else if !receipt.accepted {
        CompleteRejected(pid, p, receipt.code);
      } else {
        ok, persisted := CompleteAccepted(pid, p, receipt.result, persists);
      }
    }

    method CompleteRejected(ghost pid: Pid, p: Prepared, code: Option<string>)
      requires IsAt(pid, Waiting(p))
      modifies this
      ensures IsIdle(pid)
      ensures calm ==> slot == if code == Some(OPERATION_ID_CONFLICT) then old(slot)
                                else OrElse(Cleared(old(slot), EntryOf(p)), old(slot))
    {
      var rejection := if code.Some? then code.value else "unspecified rejection";
      if rejection == OPERATION_ID_CONFLICT {
        Advance(Stop(pid));
        return;
      }
      Advance(Answer(pid, Rejected(rejection)));
      var _ := ClearIfMatches(pid, p);
    }

    method CompleteAccepted(ghost pid: Pid, p: Prepared, result: Option<ControlResult>, persists: bool)
      returns (ok: bool, persisted: Option<ControlResult>)
      requires IsAt(pid, Waiting(p))
      modifies this
      ensures IsIdle(pid)
      ensures calm ==>
                Effect(slot, persisted) ==
                  match Marked(old(slot), EntryOf(p))
                  case None => Effect(old(slot), None)
                  case Some(marked) =>
                    if result.None? || !Bound(p, result.value) || result.value.outcome.InProgress? || !persists
                    then Effect(marked, None) else Effect(None, result)
      ensures persisted.Some? ==>
                && persisted == result && Bound(p, persisted.value) && persisted.value in results
                && !persisted.value.outcome.InProgress?
      ensures calm ==> (ok <==> persisted.Some?)
      ensures ok ==> persisted.Some? && p.operation.id in world.cleared
    {
      persisted := None;
      var terminal := result.Some? && Bound(p, result.value) && !result.value.outcome.InProgress?;
      ghost var verdict := if terminal then Terminal(result.value) else InProgressAccepted;
      Advance(Answer(pid, verdict));
      ok := MarkAcceptedIfMatches(pid, p, verdict);
      if !ok || !terminal { return false, None; }
      ok, persisted := PersistAndClear(pid, p, result.value, persists);
    }
  }
}
