/** Which deployments a target may hold that nobody can find again. */
module InstallSafety {
  import opened Prelude
  import opened InstallModel
  import Runs

  ghost function DiskAfter(log: seq<Step>): Disk { Runs.After(MACHINE, log) }
  ghost predicate IsRun(log: seq<Step>) { Runs.IsRun(MACHINE, log) }

  /** The target's journal has not closed the deployment, or an attempt left something of it. */
  predicate MayHold(d: Disk, deployment: Id) {
    || deployment in d.performed || deployment in d.residue
    || (deployment in d.journal && !d.journal[deployment].status.RolledBack?)
  }

  /** No prepared journal names the deployment. */
  ghost predicate Unnamed(d: Disk, deployment: Id) {
    forall i :: i in d.prepared ==> d.prepared[i].deployment != deployment
  }

  /** A deployment the target may hold, neither registered nor named by a prepared journal. */
  ghost predicate Orphan(d: Disk, deployment: Id) {
    MayHold(d, deployment) && deployment !in d.registry && Unnamed(d, deployment)
  }

  /** What a failure answer leaves at the target, by its code. */
  predicate Leaves(d: Disk, o: Operation, code: Code)
    requires o.plan.operation in d.journal
  {
    var id := o.plan.operation;
    match code
    case OperationIdConflict => id in d.residue || !d.journal[id].status.RolledBack?
    case Inadmissible => id in d.residue || !d.journal[id].status.RolledBack?
    case PrivilegeRequired => true
    case JournalCapacity => false
    case OutcomeUnknown => true
    case Failure(_) => id in d.residue
  }

  /** A step that clears a journal on an answer that leaves something behind. */
  predicate Forgets(d: Disk, s: Step) {
    s.ClearFailed? && s.operation.plan.operation in d.journal && Leaves(d, s.operation, s.code)
  }

  /** An orphan begins exactly when a journal is cleared on a conflict or on an unsound request
      over an operation the target has not undone, on a refusal for want of privileges, or on
      a failure whose rollback did not reach what an earlier attempt, cut short, had left. */
  lemma {:induction false} OrphanBegins(log: seq<Step>, s: Step, deployment: Id)
    requires IsRun(log) && Enabled(DiskAfter(log), s) && !Orphan(DiskAfter(log), deployment)
    ensures Orphan(Apply(DiskAfter(log), s), deployment) <==>
              Forgets(DiskAfter(log), s) && s.operation.plan.deployment == deployment
  {
    RunKeepsInv(log);
    var d := DiskAfter(log);
    match s
    case ClearFailed(_, _, _) => ClearedOrphan(d, s, deployment);
    case ClearRegistered(identity) => StillNamed(d, s, deployment);
    case Persist(_) => StillNamed(d, s, deployment);
    case _ => AttemptsAreNamed(d, s, deployment);
  }

  /** The journal's own plan and no other stops being named. */
  lemma StillNamed(d: Disk, s: Step, deployment: Id)
    requires Inv(d) && Enabled(d, s) && (s.ClearRegistered? || s.Persist?) && !Orphan(d, deployment)
    ensures !Orphan(Apply(d, s), deployment)
  {
    assert forall i :: i in d.prepared && s != ClearRegistered(i) ==>
      i in Apply(d, s).prepared && Apply(d, s).prepared[i] == d.prepared[i];
  }

  /** Whatever happens at a target happens to a deployment that a journal names. */
  lemma AttemptsAreNamed(d: Disk, s: Step, deployment: Id)
    requires Inv(d) && Enabled(d, s) && !s.ClearFailed? && !s.ClearRegistered? && !s.Persist?
    requires !Orphan(d, deployment)
    ensures !Orphan(Apply(d, s), deployment)
  {
    if MayHold(Apply(d, s), deployment) && !MayHold(d, deployment) {
      assert deployment in d.open;
      assert d.prepared[d.issued[deployment].identity].deployment == deployment;
    }
  }

  lemma ClearedOrphan(d: Disk, s: Step, deployment: Id)
    requires Inv(d) && Enabled(d, s) && s.ClearFailed? && !Orphan(d, deployment)
    ensures Orphan(Apply(d, s), deployment) <==> Forgets(d, s) && s.operation.plan.deployment == deployment
  {
    assert d.prepared[s.identity] == s.operation.plan && Issued(d, s.operation.plan);
    assert HeardInv(d, d.heard.value);
    assert forall i :: i in d.prepared && i != s.identity ==>
      i in Apply(d, s).prepared && Apply(d, s).prepared[i] == d.prepared[i];
    assert forall i :: i in d.prepared ==> Issued(d, d.prepared[i]);
    if s.operation.plan.deployment == deployment {
      assert Unnamed(Apply(d, s), deployment);
    }
  }

  /** A conflict is over credentials and nothing else; and so is the refusal of a request as
      unsound after the target accepted one under the same id. */
  lemma {:induction false} ConflictIsOverCredentials(log: seq<Step>, s: Step)
    requires IsRun(log) && Enabled(DiskAfter(log), s) && s.ClearFailed?
    requires s.code.OperationIdConflict? || s.code.Inadmissible?
    ensures var d := DiskAfter(log);
            var id := s.operation.plan.operation;
            && (s.code.OperationIdConflict? ==> id in d.journal)
            && (id in d.journal ==>
                  && d.journal[id].operation.plan == s.operation.plan
                  && d.journal[id].operation.credentials != s.operation.credentials
                  && d.journal[id].operation in d.sent && s.operation in d.sent)
  {
    RunKeepsInv(log);
    assert HeardInv(DiskAfter(log), DiskAfter(log).heard.value);
  }

  /** While no step forgets there is no orphan. */
  lemma {:induction false} NoOrphans(log: seq<Step>, deployment: Id)
    requires IsRun(log)
    requires forall k :: 0 <= k < |log| ==> !Forgets(DiskAfter(log[..k]), log[k])
    ensures !Orphan(DiskAfter(log), deployment)
  {
    if log != [] {
      var init := log[..|log| - 1];
      forall k | 0 <= k < |init| ensures !Forgets(DiskAfter(init[..k]), init[k]) {
        assert init[..k] == log[..k] && init[k] == log[k];
      }
      NoOrphans(init, deployment);
      assert init == log[..|init|];
      OrphanBegins(init, log[|log| - 1], deployment);
    }
  }

  ghost predicate OneCredential(sent: set<Operation>) {
    forall o, p ::
      (o in sent && p in sent && o.plan.operation == p.plan.operation) ==> o.credentials == p.credentials
  }

  /** The target refuses for want of privileges, or an attempt there is cut short. */
  predicate TargetTrouble(s: Step) {
    s.CutShort? || (s.ClearFailed? && s.code.PrivilegeRequired?)
  }

  /** Reruns with the credentials of the first attempt orphan nothing, whatever answers are
      lost and whenever the controller dies, as long as the target spares them both troubles. */
  lemma {:induction false} SameCredentialsNoOrphan(log: seq<Step>, deployment: Id)
    requires IsRun(log) && OneCredential(DiskAfter(log).sent)
    requires forall s :: s in log ==> !TargetTrouble(s)
    ensures !Orphan(DiskAfter(log), deployment) && DiskAfter(log).residue == {}
  {
    if log != [] {
      var init, s := log[..|log| - 1], log[|log| - 1];
      assert DiskAfter(init).sent <= DiskAfter(log).sent;
      assert s in log && forall t :: t in init ==> t in log;
      SameCredentialsNoOrphan(init, deployment);
      OrphanBegins(init, s, deployment);
      if s.ClearFailed? && (s.code.OperationIdConflict? || s.code.Inadmissible?) {
        ConflictIsOverCredentials(init, s);
      }
    }
  }

  /** Everything sent under one operation id names one deployment, epoch and identity. */
  lemma {:induction false} RetriesKeepIdentity(log: seq<Step>, o: Operation, p: Operation)
    requires IsRun(log) && o in DiskAfter(log).sent && p in DiskAfter(log).sent
    requires o.plan.operation == p.plan.operation || o.plan.deployment == p.plan.deployment
    ensures o.plan == p.plan
  {
    RunKeepsInv(log);
  }

  /** An unfinished request keeps its plan until its journal is cleared. */
  lemma {:induction false} PlanStays(log: seq<Step>, s: Step, identity: Identity)
    requires IsRun(log) && Enabled(DiskAfter(log), s) && identity in DiskAfter(log).prepared
    ensures var d, d' := DiskAfter(log), Apply(DiskAfter(log), s);
            if (s.ClearRegistered? || s.ClearFailed?) && s.identity == identity then identity !in d'.prepared
            else identity in d'.prepared && d'.prepared[identity] == d.prepared[identity]
  {
  }

  // ----------------------------------------- what a refusal for privileges forgets

  /** An open journal line at the target, and no more: nothing of the deployment is there,
      and nothing asks for it any more. */
  ghost predicate OnlyALine(d: Disk, deployment: Id) {
    && deployment in d.journal && d.journal[deployment].status.Pending?
    && deployment !in d.performed && deployment !in d.residue && deployment !in d.open
    && Unnamed(d, deployment) && (d.heard.Some? ==> d.heard.value.operation.plan.operation != deployment)
  }

  /** Unless an earlier attempt left something, a journal cleared on such a refusal forgets
      a line and nothing else. */
  lemma {:induction false} PrivilegeRefusalLeavesALine(log: seq<Step>, s: Step)
    requires IsRun(log) && Enabled(DiskAfter(log), s) && s.ClearFailed? && s.code.PrivilegeRequired?
    ensures OnlyALine(Apply(DiskAfter(log), s), s.operation.plan.deployment) <==>
              s.operation.plan.operation !in DiskAfter(log).residue
  {
    RunKeepsInv(log);
    var d := DiskAfter(log);
    assert HeardInv(d, d.heard.value);
    assert forall i :: i in d.prepared ==> Issued(d, d.prepared[i]) && d.prepared[i].identity == i;
  }

  /** And it stays so: the target never comes to hold anything of that deployment. */
  lemma {:induction false} ALineStaysALine(log: seq<Step>, s: Step, deployment: Id)
    requires IsRun(log) && Enabled(DiskAfter(log), s) && OnlyALine(DiskAfter(log), deployment)
    ensures OnlyALine(Apply(DiskAfter(log), s), deployment)
  {
    RunKeepsInv(log);
    var d := DiskAfter(log);
    assert LineInv(d, deployment) && Issued(d, d.journal[deployment].operation.plan);
  }

  // ------------------------------------------------------------- concrete runs

  const SITE := Identity(1, "https://id.example", 0)
  const PLAN := NewPlan(SITE, 0, 0, "linux")
  const FIRST := Operation(PLAN, 1)
  const SECOND := Operation(PLAN, 2)
  const PREPARED := FRESH.(prepared := map[SITE := PLAN], issued := map[0 := PLAN], nextId := 1)
  const ACCEPTED := PREPARED.(sent := {} + {FIRST}, open := {} + {0}, journal := map[0 := Line(FIRST, Pending)])

  lemma AcceptedHappens() returns (log: seq<Step>)
    ensures IsRun(log) && DiskAfter(log) == ACCEPTED
  {
    var script := [
      (Persist(PLAN), PREPARED),
      (Send(FIRST), PREPARED.(sent := {} + {FIRST}, open := {} + {0})),
      (Accept(FIRST), ACCEPTED)];
    forall i | 0 <= i < |script| ensures Runs.PlaysAt(MACHINE, FRESH, script, i) {
    }
    Runs.Play(MACHINE, [], script);
    log := [] + Runs.StepsOf(script);
  }

  /** The first attempt is applied but its answer is lost; the second brings a changed
      password, or one that makes the request unsound. */
  lemma OrphanHappens(code: Code) returns (log: seq<Step>)
    requires code.OperationIdConflict? || code.Inadmissible?
    ensures IsRun(log) && Orphan(DiskAfter(log), PLAN.deployment)
  {
    log := AcceptedHappens();
    var applied := ACCEPTED.(journal := map[0 := Line(FIRST, Completed)], performed := {} - {0}, residue := {} - {0});
    var resent := applied.(sent := {} + {FIRST} + {SECOND}, open := {} + {0} + {0});
    var heard := resent.(open := {} + {0} + {0} - {0}, heard := Some(Heard(SECOND, Refused(code))));
    var script := [
      (Complete(0), applied),
      (Send(SECOND), resent),
      (Hear(SECOND, Refused(code)), heard),
      (ClearFailed(SITE, SECOND, code),
       heard.(prepared := map[SITE := PLAN] - {SITE}, heard := None))];
    forall i | 0 <= i < |script| ensures Runs.PlaysAt(MACHINE, ACCEPTED, script, i) {
    }
    Runs.Play(MACHINE, log, script);
    log := log + Runs.StepsOf(script);
  }

  /** One attempt, one set of credentials, and a target without the privilege to go on. */
  lemma PrivilegeOrphanHappens() returns (log: seq<Step>)
    ensures IsRun(log) && Orphan(DiskAfter(log), PLAN.deployment) && OneCredential(DiskAfter(log).sent)
  {
    log := AcceptedHappens();
    var heard := ACCEPTED.(open := {} + {0} - {0}, heard := Some(Heard(FIRST, Refused(PrivilegeRequired))));
    var script := [
      (Hear(FIRST, Refused(PrivilegeRequired)), heard),
      (ClearFailed(SITE, FIRST, PrivilegeRequired), heard.(prepared := map[SITE := PLAN] - {SITE}, heard := None))];
    forall i | 0 <= i < |script| ensures Runs.PlaysAt(MACHINE, ACCEPTED, script, i) {
    }
    Runs.Play(MACHINE, log, script);
    log := log + Runs.StepsOf(script);
  }

  /** The target dies over the first attempt; the second, with the same credentials, fails
      before it gets to what the first one wrote, and undoes only its own. */
  lemma ResidueOrphanHappens() returns (log: seq<Step>)
    ensures IsRun(log) && PLAN.deployment in DiskAfter(log).residue
    ensures Orphan(DiskAfter(log), PLAN.deployment) && OneCredential(DiskAfter(log).sent)
  {
    log := AcceptedHappens();
    var wrote := ACCEPTED.(performed := {} + {0});
    var died := ACCEPTED.(performed := {} + {0} - {0}, residue := {} + {0});
    var resent := died.(sent := {} + {FIRST} + {FIRST}, open := {} + {0} + {0});
    var failed := resent.(performed := {} + {0} - {0} - {0},
                          journal := map[0 := Line(FIRST, RolledBack("PORT_IN_USE"))]);
    var answer := Refused(Failure("PORT_IN_USE"));
    var heard := failed.(open := {} + {0} + {0} - {0}, heard := Some(Heard(FIRST, answer)));
    var script := [
      (Perform(0), wrote),
      (CutShort(0), died),
      (Send(FIRST), resent),
      (RollBack(0, "PORT_IN_USE", false), failed),
      (Hear(FIRST, answer), heard),
      (ClearFailed(SITE, FIRST, Failure("PORT_IN_USE")),
       heard.(prepared := map[SITE := PLAN] - {SITE}, heard := None))];
    forall i | 0 <= i < |script| ensures Runs.PlaysAt(MACHINE, ACCEPTED, script, i) {
    }
    Runs.Play(MACHINE, log, script);
    log := log + Runs.StepsOf(script);
  }
}
