/** What every interleaving of processes, crashes and key rotations keeps. */
module DispatchSafety {
  import opened Prelude
  import opened DispatchModel
  import Runs

  ghost function WorldAfter(log: seq<Step>): World { Runs.After(MACHINE, log) }
  ghost predicate IsRun(log: seq<Step>) { Runs.IsRun(MACHINE, log) }

  /** All requests ever sent under one operation id are one request: the same content, the
      same hash and the same signed bytes. */
  lemma {:induction false} OneRequestPerId(log: seq<Step>, p: Prepared, q: Prepared)
    requires IsRun(log) && p in WorldAfter(log).sent && q in WorldAfter(log).sent
    requires p.operation.id == q.operation.id
    ensures p == q && p.hash == Sha256(p.operation) && p.jws.payload == p.operation
  {
    RunKeepsInv(log);
  }

  lemma SignedStays(w: World, s: Step, id: Id)
    requires Inv(w) && Enabled(w, s) && id in w.signed
    ensures id in Apply(w, s).signed && Apply(w, s).signed[id] == w.signed[id]
  {
  }

  lemma {:induction false} WasHeld(log: seq<Step>, id: Id) returns (k: nat)
    requires IsRun(log) && id in WorldAfter(log).journaled
    ensures k <= |log| && IsRun(log[..k]) && id in WorldAfter(log).signed
    ensures Holds(WorldAfter(log[..k]).slot, WorldAfter(log).signed[id])
  {
    RunKeepsInv(log);
    var init := log[..|log| - 1];
    RunKeepsInv(init);
    if id in WorldAfter(init).journaled {
      k := WasHeld(init, id);
      SignedStays(WorldAfter(init), log[|log| - 1], id);
      assert init[..k] == log[..k];
    } else {
      k := |log|;
      assert log[..k] == log;
    }
  }

  /** Write-ahead: at some moment before every send the slot held exactly that request. */
  lemma {:induction false} WriteAhead(log: seq<Step>, pid: Pid) returns (k: nat)
    requires IsRun(log) && Enabled(WorldAfter(log), Send(pid))
    ensures k <= |log| && IsRun(log[..k])
    ensures Holds(WorldAfter(log[..k]).slot, WorldAfter(log).processes[pid].prepared)
  {
    RunKeepsInv(log);
    var w := WorldAfter(log);
    assert ProgressInv(w, w.processes[pid]);
    k := WasHeld(log, w.processes[pid].prepared.operation.id);
  }

  /** A request about to be sent is the one in the slot exactly when its own entry was not
      cleared meanwhile; if it was, its outcome is known. */
  lemma {:induction false} SendsWhatIsHeld(log: seq<Step>, pid: Pid)
    requires IsRun(log) && Enabled(WorldAfter(log), Send(pid))
    ensures var w := WorldAfter(log);
            var p := w.processes[pid].prepared;
            && (Holds(w.slot, p) <==> p.operation.id !in w.cleared)
            && (p.operation.id in w.cleared ==> OutcomeKept(w, p.operation.id))
  {
    RunKeepsInv(log);
    var w := WorldAfter(log);
    assert ProgressInv(w, w.processes[pid]);
  }

  /** A process about to send what the slot no longer holds. */
  predicate Stale(w: World, pid: Pid) {
    At(w, pid) && w.processes[pid].Ready? && !Holds(w.slot, w.processes[pid].prepared)
  }

  /** A step that empties the slot of what another process is about to send. */
  predicate Overtakes(w: World, s: Step, pid: Pid) {
    && s.Clear? && s.pid != pid && At(w, s.pid) && At(w, pid) && w.processes[pid].Ready?
    && ClearEnabled(w, w.processes[s.pid]) && w.processes[s.pid].prepared == w.processes[pid].prepared
  }

  /** A process turns stale exactly when another one settles the very operation it was about
      to send. */
  lemma {:induction false} StaleBegins(log: seq<Step>, s: Step, pid: Pid)
    requires IsRun(log) && Enabled(WorldAfter(log), s) && !Stale(WorldAfter(log), pid)
    ensures Stale(Apply(WorldAfter(log), s), pid) <==> Overtakes(WorldAfter(log), s, pid)
  {
    RunKeepsInv(log);
    var w := WorldAfter(log);
    if At(w, pid) { assert ProgressInv(w, w.processes[pid]); }
    if s.Clear? { assert ProgressInv(w, w.processes[s.pid]); }
  }

  /** Where that never happens, every request sent is the one the slot holds. */
  lemma {:induction false} UndisturbedSendsAreHeld(log: seq<Step>, pid: Pid)
    requires IsRun(log)
    requires forall k :: 0 <= k < |log| ==> !Overtakes(WorldAfter(log[..k]), log[k], pid)
    ensures !Stale(WorldAfter(log), pid)
    ensures Enabled(WorldAfter(log), Send(pid)) ==>
              Holds(WorldAfter(log).slot, WorldAfter(log).processes[pid].prepared)
  {
    if log != [] {
      var init := log[..|log| - 1];
      forall k | 0 <= k < |init| ensures !Overtakes(WorldAfter(init[..k]), init[k], pid) {
        assert init[..k] == log[..k] && init[k] == log[k];
      }
      UndisturbedSendsAreHeld(init, pid);
      assert init == log[..|init|];
      StaleBegins(init, log[|log| - 1], pid);
    }
  }

  /** A journaled operation leaves the slot only with its result durable or its refusal
      definitive. */
  lemma {:induction false} OutcomesAreKept(log: seq<Step>, id: Id)
    requires IsRun(log) && id in WorldAfter(log).journaled
    ensures var w := WorldAfter(log);
            || (w.slot.Some? && w.slot.value.id == id && id !in w.cleared)
            || OutcomeKept(w, id)
  {
    RunKeepsInv(log);
    var w := WorldAfter(log);
    assert Accounted(w, w.signed[id]);
  }

  /** No step replaces a held entry, none takes `Accepted` back, and only a process that
      settles this very operation removes it. */
  lemma {:induction false} SlotIsNeverStolen(log: seq<Step>, s: Step)
    requires IsRun(log) && Enabled(WorldAfter(log), s) && WorldAfter(log).slot.Some?
    ensures var w := WorldAfter(log);
            var e := w.slot.value;
            match Apply(w, s).slot
            case Some(now) => SameIdentity(now, e) && (e.state.Accepted? ==> now.state.Accepted?)
            case None =>
              var progress := w.processes[s.pid];
              && s.Clear? && Holds(w.slot, progress.prepared)
              && (progress.Answered? ==>
                    progress.verdict.Rejected? && progress.verdict.code != OPERATION_ID_CONFLICT)
              && (progress.Answered? || progress.ResultPersisted?)
  {
  }

  /** The slot can be resumed by exactly the command that was journaled, whatever key is
      active now, and resuming gives back every request already sent under its id. */
  lemma {:induction false} ResumeIsReplay(log: seq<Step>, input: Input, q: Prepared)
    requires IsRun(log) && WorldAfter(log).slot.Some?
    ensures var w := WorldAfter(log);
            var e := w.slot.value;
            && e.id in w.signed
            && ResumeEntry(e, input) ==
                 (if input == w.signed[e.id].operation.input then Resumed(w.signed[e.id]) else NotThisOperation)
            && (q in w.sent && q.operation.id == e.id ==> q == w.signed[e.id])
  {
    RunKeepsInv(log);
  }

  // --------------------------------------------- what a receipt leads to

  /** The server's side: the operations that answer with such data when they succeed. */
  function Answerers(data: Option<ResultData>): set<Kind> {
    match data
    case None => {MigrateApply, KeysList, KeysValidate, KeysGenerateLocal, KeysRegisterExternal}
    case Some(MigrationApplied) => {MigrateApply}
    case Some(TenantKeyGenerated) => {TenantKeysGenerateLocal}
    case Some(TenantResourceApplied) => {TenantResourceApply}
    case Some(TenantResourceEnumerated) => {TenantResourceEnumerate}
    case Some(TenantResourceRevoked) => {TenantResourceRevoke}
    case Some(RecoveryInvalidation) => {RecoveryInvalidate}
    case Some(TenantDirectoryMutation) =>
      {TenantDirectoryCreate, TenantDirectoryUpdate, TenantDirectoryDisable, TenantDirectoryReload,
       TenantDirectoryFinalize}
    case Some(TenantDirectoryDescription) => {TenantDirectoryDescribe}
  }

  /** The receipt carries the final result of this very request: a failure, or a success with
      data that its operation answers with. */
  predicate CarriesItsResult(p: Prepared, receipt: Receipt) {
    && receipt.id == p.operation.id && receipt.accepted && receipt.result.Some?
    && var r := receipt.result.value;
    && r.sound && r.id == p.operation.id && r.hash == p.hash
    && (r.outcome.Failed? || (r.outcome.Succeeded? && p.operation.input.kind in Answerers(r.data)))
  }

  /** The receipt says that this very request is still being carried out. */
  predicate ReportsProgress(p: Prepared, receipt: Receipt) {
    && receipt.id == p.operation.id && receipt.accepted && receipt.result.Some?
    && var r := receipt.result.value;
    && r.sound && r.id == p.operation.id && r.hash == p.hash && r.outcome.InProgress?
  }

  /** The receipt refuses this very request for good. */
  predicate RefusesForGood(p: Prepared, receipt: Receipt) {
    && receipt.id == p.operation.id && !receipt.accepted && receipt.result.None?
    && receipt.code.Some? && receipt.code != Some(OPERATION_ID_CONFLICT)
  }

  /** A dispatch makes a result durable exactly when the slot holds its request and the receipt
      carries that request's own final result, and the slot is then empty. Otherwise the entry
      goes exactly on a refusal for good, and is marked exactly when it is known to be under
      way. Data of another family of operations is never persisted. */
  lemma DispatchSettles(slot: Option<Entry>, p: Prepared, receipt: Receipt, persists: bool)
    ensures DispatchEffect(slot, p, receipt, persists) ==
              if !Holds(slot, p) then Effect(slot, None)
              else if CarriesItsResult(p, receipt) then
                if persists then Effect(None, receipt.result) else Effect(Some(slot.value.(state := Accepted)), None)
              else if ReportsProgress(p, receipt) then Effect(Some(slot.value.(state := Accepted)), None)
              else if RefusesForGood(p, receipt) then Effect(None, None)
              else Effect(slot, None)
  {
    FitsItsOperation(p, receipt);
  }

  /** The conformance driver makes the same results durable. It marks every accepted entry and
      takes every refusal but a conflict as one for good. */
  lemma ConformanceSettles(slot: Option<Entry>, p: Prepared, receipt: Receipt, persists: bool)
    ensures ConformanceEffect(slot, p, receipt, persists) ==
              if !Holds(slot, p) || receipt.id != p.operation.id then Effect(slot, None)
              else if receipt.accepted then
                if CarriesItsResult(p, receipt) && persists then Effect(None, receipt.result)
                else Effect(Some(slot.value.(state := Accepted)), None)
              else if receipt.code == Some(OPERATION_ID_CONFLICT) then Effect(slot, None)
              else Effect(None, None)
  {
    FitsItsOperation(p, receipt);
  }

  lemma FitsItsOperation(p: Prepared, receipt: Receipt)
    ensures receipt.result.Some? ==>
              var data := receipt.result.value.data;
              DataFits(p.operation.input.kind, data) <==> p.operation.input.kind in Answerers(data)
  {
  }

  /** `complete_control_operation` and dispatch leave the same slot and the same durable
      result exactly when the receipt keeps its shape, or is refused by both alike. */
  lemma ConformanceAgrees(p: Prepared, receipt: Receipt, e: Entry)
    requires SameIdentity(e, EntryOf(p)) && e.state.Dispatched?
    ensures (forall persists: bool ::
               ConformanceEffect(Some(e), p, receipt, persists) == DispatchEffect(Some(e), p, receipt, persists))
            <==> SettlesAlike(p, receipt)
  {
  }

  predicate SettlesAlike(p: Prepared, receipt: Receipt) {
    || receipt.id != p.operation.id
    || (!receipt.accepted && receipt.code == Some(OPERATION_ID_CONFLICT))
    || (!receipt.accepted && receipt.code.Some? && receipt.result.None?)
    || (receipt.accepted && receipt.result.Some? && Bound(p, receipt.result.value))
  }

  /** On well-formed receipts they agree from every slot, whether or not the result can be
      persisted. */
  lemma ConformanceRefinesDispatch(slot: Option<Entry>, p: Prepared, receipt: Receipt, persists: bool)
    requires WellFormed(p, receipt)
    ensures ConformanceEffect(slot, p, receipt, persists) == DispatchEffect(slot, p, receipt, persists)
  {
  }

  // ------------------------------------------- a send that is not the held one

  const FIRST_INPUT := Input(KeysList, 0, 0)
  const NEXT_INPUT := Input(KeysValidate, 0, 0)
  const P0 := Sign(Operation(0, 0, FIRST_INPUT), 7)
  const P1 := Sign(Operation(1, 0, NEXT_INPUT), 7)

  /** Process 1 journals an operation, process 2 resumes it, the target refuses it for
      process 1, and process 3 journals another. Process 2 is still about to send. */
  lemma StaleSendHappens() returns (log: seq<Step>)
    ensures IsRun(log) && Enabled(WorldAfter(log), Send(2))
    ensures WorldAfter(log).slot == Some(EntryOf(P1)) && WorldAfter(log).processes[2].prepared == P0
  {
    log := FirstIsRefused();
    var refused := FRESH.(nextId := 1, processes := map[2 := Ready(P0)], signed := map[0 := P0], sent := {} + {P0},
                          journaled := {} + {0}, rejected := {} + {0}, cleared := {} + {0});
    var observed := refused.(processes := refused.processes[3 := Observed(NEXT_INPUT)]);
    var signed := refused.(processes := observed.processes[3 := Signed(P1)], nextId := 2,
                           signed := refused.signed[1 := P1]);
    var script := [
      (Observe(3, NEXT_INPUT), observed),
      (SignFresh(3, 7), signed),
      (Record(3), signed.(processes := signed.processes[3 := Ready(P1)], slot := Some(EntryOf(P1)),
                          journaled := signed.journaled + {1}))];
    forall i | 0 <= i < |script| ensures Runs.PlaysAt(MACHINE, refused, script, i) {
    }
    Runs.Play(MACHINE, log, script);
    log := log + Runs.StepsOf(script);
  }

  const HELD := FRESH.(nextId := 1, signed := map[0 := P0], slot := Some(EntryOf(P0)), journaled := {} + {0})
  const TWO: map<Pid, Progress> := map[1 := Ready(P0)][2 := Ready(P0)]

  lemma TwoAreReady() returns (log: seq<Step>)
    ensures IsRun(log) && WorldAfter(log) == HELD.(processes := TWO)
  {
    var signed := FRESH.(nextId := 1, signed := map[0 := P0]);
    var script := [
      (Observe(1, FIRST_INPUT), FRESH.(processes := map[1 := Observed(FIRST_INPUT)])),
      (SignFresh(1, 7), signed.(processes := map[1 := Signed(P0)])),
      (Record(1), HELD.(processes := map[1 := Ready(P0)])),
      (Resume(2, FIRST_INPUT), HELD.(processes := TWO))];
    forall i | 0 <= i < |script| ensures Runs.PlaysAt(MACHINE, FRESH, script, i) {
    }
    Runs.Play(MACHINE, [], script);
    log := [] + Runs.StepsOf(script);
  }

  lemma FirstIsRefused() returns (log: seq<Step>)
    ensures IsRun(log)
    ensures WorldAfter(log) == FRESH.(
              nextId := 1, processes := map[2 := Ready(P0)], signed := map[0 := P0], sent := {} + {P0},
              journaled := {} + {0}, rejected := {} + {0}, cleared := {} + {0})
  {
    log := TwoAreReady();
    var sent := HELD.(sent := {} + {P0});
    var answered := TWO[1 := Answered(P0, Rejected("REFUSED"))];
    var script := [
      (Send(1), sent.(processes := TWO[1 := Waiting(P0)])),
      (Answer(1, Rejected("REFUSED")), sent.(processes := answered)),
      (Clear(1), sent.(processes := answered - {1}, slot := None, cleared := {} + {0}, rejected := {} + {0}))];
    forall i | 0 <= i < |script| ensures Runs.PlaysAt(MACHINE, HELD.(processes := TWO), script, i) {
    }
    Runs.Play(MACHINE, log, script);
    log := log + Runs.StepsOf(script);
  }
}
