/** Lifecycle intents: the exact request of an update, rollback or backup whose answer may be
    lost. One lifecycle lock a deployment; any number of processes and deployments. */
module Intents {
  import opened Prelude
  import Runs

  type Id = nat
  type Pid = nat
  type Deployment = string

  datatype Action = Update | Rollback | Backup

  datatype Body = UpdateBody | RollbackBody | SnapshotBody | RestoreTestBody

  datatype Operation = Operation(id: Id, deployment: Deployment, body: Body)

  datatype Completion = Applied | SnapshotCreated | RestoreTested | Noop | OtherCompletion

  /** Failure codes: those that close no line in the target's journal, and the ordinary
      failures, which do. */
  datatype Code =
    | OperationIdConflict | OutcomeUnknown | ExecutionUnavailable | PrivilegeRequired
    | JournalCapacity | Inadmissible | Failure(name: string)

  datatype Answer = Completed(completion: Completion) | Refused(code: Code)

  datatype Line = Unfinished | Terminal(answer: Answer)

  function ActionOf(body: Body): Action {
    match body
    case UpdateBody => Update
    case RollbackBody => Rollback
    case _ => Backup
  }

  /** A snapshot and a restore test share a slot; every other request has its own. */
  lemma SlotsAreShared(a: Body, b: Body)
    ensures ActionOf(a) == ActionOf(b) <==>
              a == b || (a in {SnapshotBody, RestoreTestBody} && b in {SnapshotBody, RestoreTestBody})
  {
  }

  predicate Expected(body: Body, completion: Completion) {
    match body
    case UpdateBody => completion.Applied?
    case RollbackBody => completion.Applied?
    case SnapshotBody => completion.SnapshotCreated?
    case RestoreTestBody => completion.RestoreTested?
  }

  /** The answers after which a rollback or backup intent may go. */
  predicate Settles(body: Body, answer: Answer) {
    match answer
    case Completed(completion) => Expected(body, completion)
    case Refused(code) => !code.OperationIdConflict?
  }

  /** The requests that a completion finishes, as the target answers them. */
  function Finishes(completion: Completion): set<Body> {
    match completion
    case Applied => {UpdateBody, RollbackBody}
    case SnapshotCreated => {SnapshotBody}
    case RestoreTested => {RestoreTestBody}
    case Noop => {}
    case OtherCompletion => {}
  }

  /** A request is settled by its own completion, and by every failure but a conflict. */
  lemma SettledByItsOwn(body: Body, answer: Answer)
    ensures Settles(body, answer) <==>
              if answer.Completed? then body in Finishes(answer.completion)
              else answer != Refused(OperationIdConflict)
  {
  }

  /** The answers that close a line. */
  predicate Ends(answer: Answer) { answer.Refused? ==> answer.code.Failure? }

  /** The failures that end an attempt at an operation and leave its line open. A rollback
      and an update begin at a check of privileges; an update may lose its migration. */
  predicate LeavesOpen(body: Body, code: Code) {
    match code
    case PrivilegeRequired => body.UpdateBody? || body.RollbackBody?
    case OutcomeUnknown => body.UpdateBody?
    case ExecutionUnavailable => body.UpdateBody?
    case _ => false
  }

  /** What the target may say to an operation while no attempt at it is running. Only the
      payload of an update can be inadmissible, and only an update that changes nothing takes
      its line back. */
  predicate MayAnswer(lines: map<Id, Line>, o: Operation, answer: Answer) {
    if o.id !in lines then
      || answer == Refused(JournalCapacity)
      || (o.body.UpdateBody? && (answer == Completed(Noop) || answer == Refused(Inadmissible)))
    else
      || answer == Refused(OperationIdConflict)
      || match lines[o.id] {
           case Unfinished => answer.Refused? && LeavesOpen(o.body, answer.code)
           case Terminal(stored) => answer == stored
         }
  }

  /** What an answer that settles a rollback or backup says about the target's journal. */
  predicate Recorded(lines: map<Id, Line>, id: Id, answer: Answer) {
    if answer == Refused(JournalCapacity) then id !in lines
    else id in lines && lines[id] == (if answer == Refused(PrivilegeRequired) then Unfinished else Terminal(answer))
  }

  /** A process inside the lifecycle lock of one deployment. */
  datatype Process = Process(deployment: Deployment, action: Action, heard: Option<Answer>)

  type Slot = (Deployment, Action)

  /** The intent files and uninstall markers; the running processes; the journals of the
      targets, the operations they have begun to carry out and not concluded, and the requests
      not answered yet; and everything ever saved or sent. */
  datatype World = World(
    intents: map<Slot, Operation>, uninstalling: set<Deployment>, nextId: Id,
    processes: map<Pid, Process>, lines: map<Id, Line>, begun: set<Id>, open: set<Id>,
    saved: map<Id, Operation>, sent: set<Operation>)

  datatype Step =
    | Open(pid: Pid, deployment: Deployment, action: Action)
    | Save(pid: Pid, body: Body)
    | Send(pid: Pid)
    | Accept(operation: Operation)
    | Begin(id: Id)
    | Conclude(id: Id, answer: Answer)
    | Withdraw(operation: Operation)
    | Hear(pid: Pid, answer: Answer)
    | Clear(pid: Pid)
    | Leave(pid: Pid)
    | MarkUninstall(deployment: Deployment)
    | UnmarkUninstall(deployment: Deployment)

  predicate NoOtherIntent(intents: map<Slot, Operation>, deployment: Deployment, action: Action) {
    && (action.Update? || (deployment, Update) !in intents)
    && (action.Rollback? || (deployment, Rollback) !in intents)
    && (action.Backup? || (deployment, Backup) !in intents)
  }

  ghost predicate Unlocked(w: World, deployment: Deployment) {
    forall pid :: pid in w.processes ==> w.processes[pid].deployment != deployment
  }

  /** An attempt at the operation may be running. */
  predicate Attempting(w: World, id: Id) { id in w.open && id in w.lines && w.lines[id].Unfinished? }

  predicate HasIntent(w: World, p: Process) { (p.deployment, p.action) in w.intents }

  function Intent(w: World, p: Process): Operation
    requires HasIntent(w, p)
  {
    w.intents[(p.deployment, p.action)]
  }

  ghost predicate Enabled(w: World, s: Step) {
    match s
    case Open(pid, deployment, action) =>
      && pid !in w.processes && Unlocked(w, deployment)
      && deployment !in w.uninstalling && NoOtherIntent(w.intents, deployment, action)
    case Accept(o) => o in w.sent && o.id in w.open && o.id !in w.lines
    case Begin(id) => Attempting(w, id)
    case Conclude(id, answer) => Attempting(w, id) && Ends(answer)
    case Withdraw(o) => o in w.sent && o.body.UpdateBody? && Attempting(w, o.id)
    case MarkUninstall(_) => true
    case UnmarkUninstall(_) => true
    case _ => s.pid in w.processes && ProcessEnabled(w, w.processes[s.pid], s)
  }

  predicate ProcessEnabled(w: World, p: Process, s: Step) {
    match s
    case Save(_, body) => !HasIntent(w, p) && ActionOf(body) == p.action
    case Send(_) => HasIntent(w, p)
    case Hear(_, answer) =>
      HasIntent(w, p) && Intent(w, p).id in w.open && MayAnswer(w.lines, Intent(w, p), answer)
    // The update command clears its intent by rules of its own.
    case Clear(_) =>
      HasIntent(w, p) && (p.action.Update? || (p.heard.Some? && Settles(Intent(w, p).body, p.heard.value)))
    case Leave(_) => true
    case _ => false
  }

  function Apply(w: World, s: Step): World {
    match s
    case Open(pid, deployment, action) =>
      w.(processes := w.processes[pid := Process(deployment, action, None)])
    case Accept(o) => w.(lines := w.lines[o.id := Unfinished])
    case Begin(id) => w.(begun := w.begun + {id})
    case Conclude(id, answer) => w.(lines := w.lines[id := Terminal(answer)], begun := w.begun - {id})
    case Withdraw(o) => w.(lines := w.lines - {o.id}, begun := w.begun - {o.id})
    case MarkUninstall(deployment) => w.(uninstalling := w.uninstalling + {deployment})
    case UnmarkUninstall(deployment) => w.(uninstalling := w.uninstalling - {deployment})
    case _ => if s.pid in w.processes then ApplyTo(w, s.pid, w.processes[s.pid], s) else w
  }

  function ApplyTo(w: World, pid: Pid, p: Process, s: Step): World {
    var slot := (p.deployment, p.action);
    match s
    case Save(_, body) =>
      var o := Operation(w.nextId, p.deployment, body);
      w.(intents := w.intents[slot := o], saved := w.saved[o.id := o], nextId := w.nextId + 1,
         processes := w.processes[pid := p.(heard := None)])
    case Send(_) =>
      if HasIntent(w, p)
      then w.(sent := w.sent + {Intent(w, p)}, open := w.open + {Intent(w, p).id},
              processes := w.processes[pid := p.(heard := None)]) else w
    case Hear(_, answer) =>
      if HasIntent(w, p)
      then w.(open := w.open - {Intent(w, p).id}, processes := w.processes[pid := p.(heard := Some(answer))]) else w
    case Clear(_) => w.(intents := w.intents - {slot}, processes := w.processes[pid := p.(heard := None)])
    case Leave(_) => w.(processes := w.processes - {pid})
    case _ => w
  }

  const FRESH := World(map[], {}, 0, map[], map[], {}, {}, map[], {})

  ghost const MACHINE: Runs.Machine<World, Step> := Runs.Machine(FRESH, Enabled, Apply)

  // ------------------------------------------------------------- invariant

  ghost predicate IntentsInv(w: World) {
    forall slot :: slot in w.intents ==> IntentInv(w, slot)
  }

  predicate IntentInv(w: World, slot: Slot)
    requires slot in w.intents
  {
    var o := w.intents[slot];
    && o.id in w.saved && w.saved[o.id] == o
    && o.deployment == slot.0 && ActionOf(o.body) == slot.1
    && NoOtherIntent(w.intents, slot.0, slot.1)
  }

  ghost predicate HistoryInv(w: World) {
    && (forall id :: id in w.saved ==> w.saved[id].id == id < w.nextId)
    && (forall o :: o in w.sent ==> o.id in w.saved && w.saved[o.id] == o)
    && (forall id :: id in w.lines ==> id in w.saved && (w.lines[id].Terminal? ==> Ends(w.lines[id].answer)))
    && (forall id :: id in w.open ==> id in w.saved && w.saved[id] in w.sent)
    && w.begun <= w.lines.Keys
  }

  ghost predicate ProcessesInv(w: World) {
    && (forall pid :: pid in w.processes ==> ProcessInv(w, w.processes[pid]))
    && (forall p, q :: p in w.processes && q in w.processes && p != q ==>
          w.processes[p].deployment != w.processes[q].deployment)
  }

  ghost predicate Inv(w: World) { IntentsInv(w) && HistoryInv(w) && ProcessesInv(w) }

  predicate ProcessInv(w: World, p: Process) {
    && NoOtherIntent(w.intents, p.deployment, p.action)
    && (p.heard.Some? ==>
          && HasIntent(w, p) && Intent(w, p) in w.sent && Intent(w, p).id !in w.open
          && MayAnswer(w.lines, Intent(w, p), p.heard.value))
  }

  lemma SaveKeepsIntents(w: World, s: Step)
    requires Inv(w) && Enabled(w, s) && s.Save?
    ensures IntentsInv(Apply(w, s))
  {
    var p := w.processes[s.pid];
    var w' := Apply(w, s);
    assert ProcessInv(w, p);
    forall slot | slot in w'.intents ensures IntentInv(w', slot) {
      if slot != (p.deployment, p.action) {
        assert IntentInv(w, slot) && slot.0 != p.deployment;
      }
    }
  }

  lemma IntentsStep(w: World, s: Step)
    requires Inv(w) && Enabled(w, s)
    ensures IntentsInv(Apply(w, s))
  {
    if s.Save? {
      SaveKeepsIntents(w, s);
    } else {
      forall slot | slot in Apply(w, s).intents ensures IntentInv(Apply(w, s), slot) {
        assert IntentInv(w, slot);
      }
    }
  }

  lemma HistoryStep(w: World, s: Step)
    requires Inv(w) && Enabled(w, s)
    ensures HistoryInv(Apply(w, s))
  {
    if s.Send? || s.Hear? {
      var p := w.processes[s.pid];
      assert IntentInv(w, (p.deployment, p.action));
    }
  }

  predicate TargetStep(s: Step) { s.Accept? || s.Begin? || s.Conclude? || s.Withdraw? }

  lemma TargetKeepsProcesses(w: World, s: Step)
    requires Inv(w) && Enabled(w, s) && TargetStep(s)
    ensures ProcessesInv(Apply(w, s))
  {
    forall pid | pid in w.processes ensures ProcessInv(Apply(w, s), w.processes[pid]) {
      assert ProcessInv(w, w.processes[pid]);
    }
  }

  /** A step of one process keeps the others, which work on other deployments. */
  lemma OtherProcess(w: World, s: Step, pid: Pid)
    requires Inv(w) && Enabled(w, s) && (s.Save? || s.Clear? || s.Send? || s.Hear?)
    requires pid in w.processes && pid != s.pid
    ensures ProcessInv(Apply(w, s), w.processes[pid])
  {
    var p, q := w.processes[pid], w.processes[s.pid];
    assert ProcessInv(w, p) && p.deployment != q.deployment;
    if HasIntent(w, p) { assert IntentInv(w, (p.deployment, p.action)); }
    if HasIntent(w, q) { assert IntentInv(w, (q.deployment, q.action)); }
  }

  lemma OwnProcess(w: World, s: Step)
    requires Inv(w) && Enabled(w, s) && (s.Save? || s.Clear? || s.Send? || s.Hear?)
    ensures s.pid in Apply(w, s).processes && ProcessInv(Apply(w, s), Apply(w, s).processes[s.pid])
  {
    var p := w.processes[s.pid];
    assert ProcessInv(w, p);
    if HasIntent(w, p) { assert IntentInv(w, (p.deployment, p.action)); }
  }

  lemma ProcessesStep(w: World, s: Step)
    requires Inv(w) && Enabled(w, s)
    ensures ProcessesInv(Apply(w, s))
  {
    var w' := Apply(w, s);
    if TargetStep(s) {
      TargetKeepsProcesses(w, s);
    } else if s.Save? || s.Clear? || s.Send? || s.Hear? {
      OwnProcess(w, s);
      forall pid | pid in w'.processes ensures ProcessInv(w', w'.processes[pid]) {
        if pid != s.pid { OtherProcess(w, s, pid); }
      }
    }
  }

  lemma {:induction false} RunKeepsInv(log: seq<Step>)
    requires Runs.IsRun(MACHINE, log)
    ensures Inv(Runs.After(MACHINE, log))
  {
    forall w, s | Inv(w) && Enabled(w, s) ensures Inv(Apply(w, s)) {
      IntentsStep(w, s);
      HistoryStep(w, s);
      ProcessesStep(w, s);
    }
    Runs.Inductive(MACHINE, Inv, log);
  }

  // --------------------------------------------------------------- theorems

  ghost function WorldAfter(log: seq<Step>): World { Runs.After(MACHINE, log) }
  ghost predicate IsRun(log: seq<Step>) { Runs.IsRun(MACHINE, log) }

  /** A deployment has at most one pending intent, whatever runs beside it. */
  lemma {:induction false} AtMostOneIntent(log: seq<Step>, deployment: Deployment, a: Action, b: Action)
    requires IsRun(log) && (deployment, a) in WorldAfter(log).intents && (deployment, b) in WorldAfter(log).intents
    ensures a == b
  {
    RunKeepsInv(log);
    assert IntentInv(WorldAfter(log), (deployment, a));
  }

  /** What is sent for a deployment and action is the stored intent, and two requests under
      one id are one request. */
  lemma {:induction false} SendsTheIntent(log: seq<Step>, pid: Pid, o: Operation)
    requires IsRun(log) && Enabled(WorldAfter(log), Send(pid)) && o in Apply(WorldAfter(log), Send(pid)).sent
    ensures var w := WorldAfter(log);
            var p := w.processes[pid];
            && HasIntent(w, p)
            && (o !in w.sent || o.id == Intent(w, p).id ==> o == Intent(w, p))
  {
    RunKeepsInv(log);
  }

  /** A rollback or backup intent only goes when its process has heard an answer to exactly
      that operation that settles it; and the code of that answer tells what the target's
      journal then holds: nothing, an open line, or the answer itself. */
  lemma {:induction false} IntentsAreKept(log: seq<Step>, s: Step, deployment: Deployment, action: Action)
    requires IsRun(log) && Enabled(WorldAfter(log), s) && !action.Update?
    requires (deployment, action) in WorldAfter(log).intents
    ensures var w, w' := WorldAfter(log), Apply(WorldAfter(log), s);
            var o := w.intents[(deployment, action)];
            if (deployment, action) in w'.intents then w'.intents[(deployment, action)] == o
            else s.Clear? && o in w.sent
                 && var heard := w.processes[s.pid].heard;
                    && heard.Some? && Settles(o.body, heard.value)
                    && (o.id !in w'.lines <==> heard.value == Refused(JournalCapacity))
                    && (o.id in w'.lines ==>
                          w'.lines[o.id] ==
                            if heard.value == Refused(PrivilegeRequired) then Unfinished else Terminal(heard.value))
  {
    RunKeepsInv(log);
    var w := WorldAfter(log);
    if s.Save? || s.Clear? || s.Send? || s.Hear? {
      assert ProcessInv(w, w.processes[s.pid]);
    }
    assert IntentInv(w, (deployment, action));
  }

  /** An open line at the target that no intent names and nobody asks for any more. */
  ghost predicate Forgotten(w: World, id: Id) {
    && id in w.lines && w.lines[id].Unfinished? && id !in w.open
    && forall slot :: slot in w.intents ==> w.intents[slot].id != id
  }

  /** A line is forgotten exactly when its intent is cleared while it is open and no request
      for it is. */
  lemma {:induction false} ForgottenBegins(log: seq<Step>, s: Step, id: Id)
    requires IsRun(log) && Enabled(WorldAfter(log), s) && !Forgotten(WorldAfter(log), id)
    ensures var w := WorldAfter(log);
            Forgotten(Apply(w, s), id) <==>
              && s.Clear? && Intent(w, w.processes[s.pid]).id == id
              && id in w.lines && w.lines[id].Unfinished? && id !in w.open
  {
    RunKeepsInv(log);
    var w := WorldAfter(log);
    if s.Save? || s.Clear? || s.Send? || s.Hear? {
      var p := w.processes[s.pid];
      OnlySlot(w, (p.deployment, p.action));
      if s.Save? {
        assert forall slot :: slot in w.intents ==> Apply(w, s).intents[slot] == w.intents[slot];
      } else if s.Clear? {
        ClearBegins(w, s, id);
      }
    }
  }

  lemma ClearBegins(w: World, s: Step, id: Id)
    requires Inv(w) && Enabled(w, s) && s.Clear? && !Forgotten(w, id)
    ensures Forgotten(Apply(w, s), id) <==>
              && Intent(w, w.processes[s.pid]).id == id
              && id in w.lines && w.lines[id].Unfinished? && id !in w.open
  {
    var p := w.processes[s.pid];
    OnlySlot(w, (p.deployment, p.action));
    if Intent(w, p).id != id {
      assert forall slot :: slot in w.intents && w.intents[slot].id == id ==> slot in Apply(w, s).intents;
    }
  }

  lemma OnlySlot(w: World, slot: Slot)
    requires Inv(w)
    ensures forall other :: other in w.intents && slot in w.intents && w.intents[other].id == w.intents[slot].id ==>
              other == slot
    ensures forall other :: other in w.intents && other != slot ==> other in (w.intents - {slot})
  {
    forall other | other in w.intents && slot in w.intents && w.intents[other].id == w.intents[slot].id
      ensures other == slot
    {
      assert IntentInv(w, other) && IntentInv(w, slot);
    }
  }

  /** For a rollback or backup: exactly when the answer it is cleared on is the refusal for
      want of privileges, which asks for the same operation id to be resumed. */
  lemma {:induction false} PrivilegeRefusalForgets(log: seq<Step>, pid: Pid)
    requires IsRun(log) && Enabled(WorldAfter(log), Clear(pid))
    requires !WorldAfter(log).processes[pid].action.Update?
    ensures var w := WorldAfter(log);
            var p := w.processes[pid];
            && (Forgotten(Apply(w, Clear(pid)), Intent(w, p).id) <==> p.heard == Some(Refused(PrivilegeRequired)))
            && (p.heard == Some(Refused(PrivilegeRequired)) ==> Intent(w, p).body.RollbackBody?)
  {
    RunKeepsInv(log);
    var w := WorldAfter(log);
    var p := w.processes[pid];
    assert ProcessInv(w, p) && IntentInv(w, (p.deployment, p.action));
    ForgottenBegins(log, Clear(pid), Intent(w, p).id);
  }

  /** Whatever the target had done by then stays as it is, and no later request closes the line. */
  lemma {:induction false} ForgottenForGood(log: seq<Step>, more: seq<Step>, id: Id)
    requires IsRun(log + more) && IsRun(log) && Forgotten(WorldAfter(log), id)
    ensures Forgotten(WorldAfter(log + more), id)
    ensures id in WorldAfter(log + more).begun <==> id in WorldAfter(log).begun
  {
    if more == [] {
      assert log + more == log;
    } else {
      var init := log + more[..|more| - 1];
      assert (log + more)[..|log + more| - 1] == init;
      ForgottenForGood(log, more[..|more| - 1], id);
      ForgottenStays(init, more[|more| - 1], id);
    }
  }

  lemma ForgottenStays(log: seq<Step>, s: Step, id: Id)
    requires IsRun(log) && Enabled(WorldAfter(log), s) && Forgotten(WorldAfter(log), id)
    ensures Forgotten(Apply(WorldAfter(log), s), id)
    ensures id in Apply(WorldAfter(log), s).begun <==> id in WorldAfter(log).begun
  {
    RunKeepsInv(log);
  }

  const SLOT: Slot := ("site", Rollback)
  const ROLLBACK := Operation(0, "site", RollbackBody)
  const AWAY := Process("site", Rollback, None)
  const BEGUN :=
    World(map[SLOT := ROLLBACK], {}, 1, map[0 := AWAY], map[0 := Unfinished], {} + {0}, {} + {0},
          map[0 := ROLLBACK], {} + {ROLLBACK})
  const LEFT := BEGUN.(processes := map[])

  lemma RollbackBegins() returns (log: seq<Step>)
    ensures IsRun(log) && WorldAfter(log) == LEFT
  {
    var entered := FRESH.(processes := map[0 := AWAY]);
    var saved := entered.(intents := map[SLOT := ROLLBACK], saved := map[0 := ROLLBACK], nextId := 1);
    var sent := saved.(sent := {} + {ROLLBACK}, open := {} + {0});
    assert map[0 := AWAY] - {0} == map[];
    var script := [
      (Open(0, "site", Rollback), entered),
      (Save(0, RollbackBody), saved),
      (Send(0), sent),
      (Accept(ROLLBACK), sent.(lines := map[0 := Unfinished])),
      (Begin(0), BEGUN),
      (Leave(0), LEFT)];
    forall i | 0 <= i < |script| ensures Runs.PlaysAt(MACHINE, FRESH, script, i) {
    }
    Runs.Play(MACHINE, [], script);
    log := [] + Runs.StepsOf(script);
  }

  /** The target dies over a rollback it has begun; run again, the rollback is refused for want
      of privileges and given up, half done. */
  lemma HalfDoneIsForgotten() returns (log: seq<Step>)
    ensures IsRun(log) && 0 in WorldAfter(log).begun && Forgotten(WorldAfter(log), 0)
  {
    log := RollbackBegins();
    var again := LEFT.(processes := map[0 := AWAY]);
    var sent := again.(sent := LEFT.sent + {ROLLBACK}, open := LEFT.open + {0});
    var refused := AWAY.(heard := Some(Refused(PrivilegeRequired)));
    var heard := sent.(open := sent.open - {0}, processes := map[0 := refused]);
    var cleared := heard.(intents := heard.intents - {SLOT}, processes := map[0 := AWAY]);
    var script := [
      (Open(0, "site", Rollback), again),
      (Send(0), sent),
      (Hear(0, Refused(PrivilegeRequired)), heard),
      (Clear(0), cleared)];
    forall i | 0 <= i < |script| ensures Runs.PlaysAt(MACHINE, LEFT, script, i) {
    }
    Runs.Play(MACHINE, log, script);
    log := log + Runs.StepsOf(script);
  }

  // ---------------------------------------------------------------- commands

  /** What the target will do with a request: whether its journal has room, whether it has the
      privileges, and what comes of carrying it out. */
  datatype Target = Target(room: bool, privileged: bool, result: Answer)

  /** The answer of an undisturbed exchange. */
  function Reply(lines: map<Id, Line>, o: Operation, target: Target): Answer {
    if o.id in lines && lines[o.id].Terminal? then lines[o.id].answer
    else if o.id !in lines && !target.room then Refused(JournalCapacity)
    else if o.body.RollbackBody? && !target.privileged then Refused(PrivilegeRequired)
    else target.result
  }

  /** How an undisturbed exchange ends. */
  function Settled(body: Body, reply: Answer): Outcome {
    var settles := if reply.Completed? then body in Finishes(reply.completion)
                   else reply != Refused(OperationIdConflict);
    if settles then Finished(reply) else Mismatch(reply)
  }

  datatype Outcome =
    | Finished(answer: Answer) | Mismatch(answer: Answer) | Pending | UninstallPending | OtherPending
    | Unavailable | NoAnswer | Stopped

  /** A line may be opened and closed, but what is closed stays. */
  predicate Onward(before: map<Id, Line>, after: map<Id, Line>, id: Id) {
    id in before ==> id in after && (before[id].Terminal? ==> after[id] == before[id])
  }

  /** Another request for the deployment is pending. */
  predicate Blocked(intents: map<Slot, Operation>, slot: Slot) {
    exists other :: other != slot.1 && (slot.0, other) in intents
  }

  /** A rollback or backup gives way to an uninstall and to any other pending request, resumes
      its own, and otherwise begins a new one. */
  function Choice(w: World, deployment: Deployment, body: Body, available: bool): Outcome {
    var slot := (deployment, ActionOf(body));
    if deployment in w.uninstalling then UninstallPending
    else if Blocked(w.intents, slot) then OtherPending
    else if slot in w.intents then if w.intents[slot].body == body then Pending else OtherPending
    else if available then Pending
    else Unavailable
  }

  /** How it ends when nothing comes between. */
  function Undisturbed(w: World, deployment: Deployment, body: Body, available: bool, target: Target): Outcome {
    var slot := (deployment, ActionOf(body));
    var o := if slot in w.intents then w.intents[slot] else Operation(w.nextId, deployment, body);
    var choice := Choice(w, deployment, body, available);
    if choice.Pending? then Settled(body, Reply(w.lines, o, target)) else choice
  }

  class Host {
    // No write fails, no answer is lost and no process is killed.
    const calm: bool
    var intents: map<Slot, Operation>
    var uninstalling: set<Deployment>
    var nextId: Id
    // Kept by the targets.
    var lines: map<Id, Line>
    var begun: set<Id>
    ghost var world: World
    ghost var log: seq<Step>

    ghost predicate Valid() reads this {
      && Runs.IsRun(MACHINE, log) && Runs.After(MACHINE, log) == world
      && world.intents == intents && world.uninstalling == uninstalling && world.nextId == nextId
      && world.lines == lines && world.begun == begun
    }

    ghost predicate Inside(pid: Pid, deployment: Deployment, action: Action) reads this {
      && Valid() && pid in world.processes
      && world.processes[pid].deployment == deployment && world.processes[pid].action == action
    }

    constructor (calm: bool)
      ensures Valid() && world == FRESH && this.calm == calm
    {
      this.calm := calm;
      intents, uninstalling, nextId, lines, begun := map[], {}, 0, map[], {};
      world, log := FRESH, [];
    }

    /** Commands for other deployments run, and what was sent earlier arrives. */
    method Others(ghost pid: Pid, deployment: Deployment, action: Action)
      requires Inside(pid, deployment, action)
      modifies this
      ensures Inside(pid, deployment, action) && world.processes[pid] == old(world.processes[pid])
      ensures ((deployment, action) in intents) == ((deployment, action) in old(intents))
      ensures (deployment, action) in intents ==> intents[(deployment, action)] == old(intents)[(deployment, action)]
      ensures old(world.sent) <= world.sent
      ensures (deployment, action) in intents ==>
                && (intents[(deployment, action)].id in old(world.open) ==>
                      intents[(deployment, action)].id in world.open)
                && Onward(old(lines), lines, intents[(deployment, action)].id)
      ensures calm ==> world == old(world)
    {
    }

    ghost method Advance(s: Step)
      requires Valid() && Enabled(world, s) && (s.Open? || s.Send? || s.Hear? || s.Leave?)
      modifies `world, `log
      ensures Valid() && world == Apply(old(world), s)
    {
      Runs.Extend(MACHINE, log, s);
      world, log := Apply(world, s), log + [s];
    }

    /** `HostIntent::open`, with the lock granted: refuses beside any other pending action. */
    method OpenIntent(ghost pid: Pid, deployment: Deployment, action: Action) returns (outcome: Outcome)
      requires Valid() && pid !in world.processes && Unlocked(world, deployment)
      modifies `world, `log
      ensures Valid()
      ensures outcome == if deployment in uninstalling then UninstallPending
                         else if Blocked(intents, (deployment, action)) then OtherPending else Pending
      ensures outcome.Pending? ==> Inside(pid, deployment, action) && world.processes[pid].heard.None?
      ensures !outcome.Pending? ==> world == old(world)
    {
      if deployment in uninstalling { return UninstallPending; }
      if !action.Update? && (deployment, Update) in intents { return OtherPending; }
      if !action.Rollback? && (deployment, Rollback) in intents { return OtherPending; }
      if !action.Backup? && (deployment, Backup) in intents { return OtherPending; }
      Advance(Open(pid, deployment, action));
      outcome := Pending;
    }

    method SaveIntent(ghost pid: Pid, deployment: Deployment, action: Action, body: Body) returns (ok: bool)
      requires Inside(pid, deployment, action) && (deployment, action) !in intents && ActionOf(body) == action
      modifies `intents, `nextId, `world, `log
      ensures Inside(pid, deployment, action)
      ensures ok ==> (deployment, action) in intents
                     && intents[(deployment, action)] == Operation(old(nextId), deployment, body)
      ensures !ok ==> intents == old(intents)
      ensures calm ==> ok
    {
      var io := Attempt(calm);
      ok := io.Done?;
      if ok {
        Runs.Extend(MACHINE, log, Save(pid, body));
        world, log := Apply(world, Save(pid, body)), log + [Save(pid, body)];
        intents, nextId := intents[(deployment, action) := Operation(nextId, deployment, body)], nextId + 1;
      }
    }

    /** A step of the target. */
    method AtTarget(s: Step)
      requires Valid() && Enabled(world, s) && (s.Accept? || s.Begin? || s.Conclude?)
      modifies `lines, `begun, `world, `log
      ensures Valid() && world == Apply(old(world), s)
    {
      Runs.Extend(MACHINE, log, s);
      world, log := Apply(world, s), log + [s];
      match s {
        case Accept(o) => lines := lines[o.id := Unfinished];
        case Begin(id) => begun := begun + {id};
        case Conclude(id, answer) => lines, begun := lines[id := Terminal(answer)], begun - {id};
      }
    }

    /** The target and its journal: a stored result is the answer to a repeated id, an open
        line is carried out again, and a new operation must find room for its line. */
    method RespondTo(o: Operation, target: Target) returns (answer: Option<Answer>)
      requires Ends(target.result) && Valid() && o in world.sent && o.id in world.open && !o.body.UpdateBody?
      modifies `lines, `begun, `world, `log
      ensures Valid() && world == old(world).(lines := lines, begun := begun)
      ensures answer.Some? ==> MayAnswer(lines, o, answer.value)
      ensures o.id in old(lines) && old(lines)[o.id].Terminal? ==>
                && lines == old(lines)
                && (answer == Some(old(lines)[o.id].answer) || (!calm && answer == Some(Refused(OperationIdConflict))))
      ensures calm ==> answer == Some(Reply(old(lines), o, target))
      ensures forall id :: id != o.id ==> (id in lines <==> id in old(lines)) && Onward(old(lines), lines, id)
    {
      if o.id in lines {
        var differs := Oracle();
        if differs && !calm { return Some(Refused(OperationIdConflict)); }
        if lines[o.id].Terminal? { return Some(lines[o.id].answer); }
      } else {
        if !target.room { return Some(Refused(JournalCapacity)); }
        AtTarget(Accept(o));
      }
      answer := CarryOut(o, target);
    }

    /** Of rollbacks and backups, a rollback checks its privileges before it begins, also when
        an earlier attempt has begun. */
    method CarryOut(o: Operation, target: Target) returns (answer: Option<Answer>)
      requires Ends(target.result) && Valid() && o in world.sent && o.id in world.open && !o.body.UpdateBody?
      requires o.id in lines && lines[o.id].Unfinished?
      modifies `lines, `begun, `world, `log
      ensures Valid() && world == old(world).(lines := lines, begun := begun)
      ensures o.id in lines && lines == old(lines)[o.id := lines[o.id]]
      ensures match answer
              case None => lines[o.id].Unfinished?
              case Some(a) =>
                if a == Refused(PrivilegeRequired)
                then o.body.RollbackBody? && lines == old(lines) && begun == old(begun)
                else a == target.result && lines[o.id] == Terminal(a) && o.id !in begun
      ensures answer == Some(Refused(PrivilegeRequired)) <==> o.body.RollbackBody? && !target.privileged
      ensures calm ==> answer.Some?
    {
      if o.body.RollbackBody? && !target.privileged { return Some(Refused(PrivilegeRequired)); }
      AtTarget(Begin(o.id));
      var survives := Oracle();
      if !survives && !calm { return None; }
      AtTarget(Conclude(o.id, target.result));
      answer := Some(target.result);
    }

    method ExecuteIntent(ghost pid: Pid, deployment: Deployment, action: Action, target: Target)
      returns (answer: Option<Answer>)
      requires Inside(pid, deployment, action) && (deployment, action) in intents && !action.Update?
      requires Ends(target.result)
      modifies this
      ensures Inside(pid, deployment, action) && (deployment, action) in intents
      ensures intents[(deployment, action)] == old(intents)[(deployment, action)]
      ensures intents[(deployment, action)] in world.sent
      ensures answer.Some? ==>
                && intents[(deployment, action)].id !in world.open
                && MayAnswer(lines, intents[(deployment, action)], answer.value)
                && world.processes[pid].heard == answer
      ensures calm ==> answer == Some(Reply(old(lines), old(intents)[(deployment, action)], target))
      ensures var id := old(intents)[(deployment, action)].id;
              answer.Some? && id in old(lines) && old(lines)[id].Terminal? ==>
                answer.value == old(lines)[id].answer || (!calm && answer.value == Refused(OperationIdConflict))
    {
      RunKeepsInv(log);
      assert IntentInv(world, (deployment, action));
      var o := intents[(deployment, action)];
      Advance(Send(pid));
      Others(pid, deployment, action);
      var arrives := Oracle();
      if !arrives && !calm { return None; }
      answer := RespondTo(o, target);
      var answered := Oracle();
      if answer.None? || (!answered && !calm) { return None; }
      Advance(Hear(pid, answer.value));
    }

    method ClearIntent(ghost pid: Pid, deployment: Deployment, action: Action) returns (ok: bool)
      requires Inside(pid, deployment, action) && Enabled(world, Clear(pid)) && !action.Update?
      modifies `intents, `world, `log
      ensures Inside(pid, deployment, action) && (calm ==> ok)
      ensures world == old(world).(intents := intents, processes := world.processes)
      ensures intents == if ok then old(intents) - {(deployment, action)} else old(intents)
      ensures var id, heard := old(intents)[(deployment, action)].id, old(world.processes[pid].heard.value);
              ok ==> Recorded(lines, id, heard) && (Forgotten(world, id) <==> heard == Refused(PrivilegeRequired))
    {
      var io := Attempt(calm);
      ok := io.Done?;
      if ok {
        IntentsAreKept(log, Clear(pid), deployment, action);
        PrivilegeRefusalForgets(log, pid);
        Runs.Extend(MACHINE, log, Clear(pid));
        world, log := Apply(world, Clear(pid)), log + [Clear(pid)];
        intents := intents - {(deployment, action)};
      }
    }

    /** Sends the stored intent and clears it when the answer settles it. */
    method Finish(ghost pid: Pid, deployment: Deployment, action: Action, target: Target)
      returns (outcome: Outcome)
      requires Inside(pid, deployment, action) && (deployment, action) in intents && !action.Update?
      requires Ends(target.result)
      modifies this
      ensures Valid() && pid !in world.processes
      ensures outcome.Finished? || outcome.Mismatch? || outcome.NoAnswer? || outcome.Stopped?
      ensures var o := old(intents)[(deployment, action)];
              && o in world.sent
              && (outcome.Finished? ==>
                    (deployment, action) !in intents && Settles(o.body, outcome.answer)
                    && Recorded(lines, o.id, outcome.answer)
                    && (Forgotten(world, o.id) <==> outcome.answer == Refused(PrivilegeRequired)))
              && (!outcome.Finished? ==> (deployment, action) in intents && intents[(deployment, action)] == o)
              && (outcome.Mismatch? ==> MayAnswer(lines, o, outcome.answer) && !Settles(o.body, outcome.answer))
      ensures var o := old(intents)[(deployment, action)];
              calm ==> outcome == Settled(o.body, Reply(old(lines), o, target))
    {
      var answer := ExecuteIntent(pid, deployment, action, target);
      if answer.Some? {
        outcome := SettleIntent(pid, deployment, action, answer.value);
      } else {
        outcome := NoAnswer;
      }
      Advance(Leave(pid));
    }

    method SettleIntent(ghost pid: Pid, deployment: Deployment, action: Action, answer: Answer)
      returns (outcome: Outcome)
      requires Inside(pid, deployment, action) && (deployment, action) in intents
      requires world.processes[pid].heard == Some(answer) && !action.Update?
      modifies `intents, `world, `log
      ensures Inside(pid, deployment, action)
      ensures world == old(world).(intents := intents, processes := world.processes)
      ensures outcome == (if !Settles(old(intents)[(deployment, action)].body, answer) then Mismatch(answer)
                          else if (deployment, action) in intents then Stopped else Finished(answer))
      ensures intents == if outcome.Finished? then old(intents) - {(deployment, action)} else old(intents)
      ensures var id := old(intents)[(deployment, action)].id;
              outcome.Finished? ==>
                Recorded(lines, id, answer) && (Forgotten(world, id) <==> answer == Refused(PrivilegeRequired))
      ensures calm ==> outcome == Settled(old(intents)[(deployment, action)].body, answer)
    {
      SettledByItsOwn(intents[(deployment, action)].body, answer);
      if !Settles(intents[(deployment, action)].body, answer) { return Mismatch(answer); }
      var ok := ClearIntent(pid, deployment, action);
      outcome := if ok then Finished(answer) else Stopped;
    }

    /** `run_rollback` and `execute_backup_intent`: a pending operation of the same kind is
        sent again as it was stored, and only if there is none is a new one saved. */
    method RunAction(ghost pid: Pid, deployment: Deployment, body: Body, available: bool, target: Target)
      returns (outcome: Outcome)
      requires Valid() && pid !in world.processes && Unlocked(world, deployment) && !body.UpdateBody?
      requires Ends(target.result)
      modifies this
      ensures Valid() && pid !in world.processes
      ensures var slot := (deployment, ActionOf(body));
              && (slot in old(intents) && (outcome.Finished? || outcome.Mismatch? || outcome.NoAnswer?) ==>
                    old(intents)[slot] in world.sent)
              && (slot in old(intents) && slot in intents ==> intents[slot] == old(intents)[slot])
              && (slot in old(intents) && slot !in intents ==>
                    outcome.Finished? && Settles(old(intents)[slot].body, outcome.answer)
                    && Recorded(lines, old(intents)[slot].id, outcome.answer)
                    && (Forgotten(world, old(intents)[slot].id) <==> outcome.answer == Refused(PrivilegeRequired)))
      ensures outcome.UninstallPending? || outcome.OtherPending? || outcome.Unavailable? ==> intents == old(intents)
      ensures !available && (deployment, ActionOf(body)) !in old(intents) ==> intents == old(intents)
      ensures outcome.Finished? && (deployment, ActionOf(body)) in old(intents) ==>
                old(intents)[(deployment, ActionOf(body))].body == body
      ensures calm ==> outcome == Undisturbed(old(world), deployment, body, available, target)
    {
      var action := ActionOf(body);
      outcome := ChooseIntent(pid, deployment, body, available);
      if outcome.Pending? { outcome := Finish(pid, deployment, action, target); }
    }

    /** Enters the lock; `Pending` with the stored request, or with a new one saved. */
    method ChooseIntent(ghost pid: Pid, deployment: Deployment, body: Body, available: bool)
      returns (outcome: Outcome)
      requires Valid() && pid !in world.processes && Unlocked(world, deployment) && !body.UpdateBody?
      modifies `intents, `nextId, `world, `log
      ensures Valid() && lines == old(lines)
      ensures outcome.Pending? || outcome.UninstallPending? || outcome.OtherPending? || outcome.Unavailable?
              || outcome.Stopped?
      ensures !outcome.Pending? ==> pid !in world.processes && intents == old(intents)
      ensures var slot := (deployment, ActionOf(body));
              && (outcome.Pending? ==>
                    && Inside(pid, deployment, slot.1) && slot in intents && intents[slot].body == body
                    && intents[slot] == (if slot in old(intents) then old(intents)[slot]
                                         else Operation(old(nextId), deployment, body)))
              && (!available && slot !in old(intents) ==> !outcome.Pending?)
      ensures calm ==> outcome == Choice(old(world), deployment, body, available)
    {
      var action := ActionOf(body);
      outcome := OpenIntent(pid, deployment, action);
      if !outcome.Pending? { return; }
      if (deployment, action) in intents {
        if intents[(deployment, action)].body != body {
          Advance(Leave(pid));
          return OtherPending;
        }
      } else {
        outcome := BeginIntent(pid, deployment, body, available);
      }
    }

    /** Saves a new request, if there is something to ask for. */
    method BeginIntent(ghost pid: Pid, deployment: Deployment, body: Body, available: bool) returns (outcome: Outcome)
      requires Inside(pid, deployment, ActionOf(body)) && (deployment, ActionOf(body)) !in intents
      modifies `intents, `nextId, `world, `log
      ensures Valid() && lines == old(lines)
      ensures outcome.Pending? || outcome.Unavailable? || outcome.Stopped?
      ensures outcome.Unavailable? <==> !available
      ensures !outcome.Pending? ==> pid !in world.processes && intents == old(intents)
      ensures outcome.Pending? ==>
                && Inside(pid, deployment, ActionOf(body)) && (deployment, ActionOf(body)) in intents
                && intents[(deployment, ActionOf(body))] == Operation(old(nextId), deployment, body)
      ensures calm ==> !outcome.Stopped?
    {
      if !available {
        Advance(Leave(pid));
        return Unavailable;
      }
      var ok := SaveIntent(pid, deployment, ActionOf(body), body);
      if !ok {
        Advance(Leave(pid));
        return Stopped;
      }
      outcome := Pending;
    }
  }
}
