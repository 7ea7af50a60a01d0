/** `tls certificate apply` and `tls certificate recover` on one host.

    Every durable write may fail or be the last thing the process does. Between any two
    writes other processes may run; the deployment lock and the activation-link lock held
    by a command keep them out of its own binding directory, link and generation. */
module TlsCertificates {
  import opened Prelude
  import opened TlsModel
  import opened TlsSafety
  import Runs

  /** All that a command reads or writes while it holds its two locks. */
  datatype View = View(dir: BindingDir, active: Option<Generation>, files: Option<set<GenerationFile>>)

  function ViewOf(d: Disk, p: Plan): View {
    View(Dir(d, p.binding), Active(d, p.provider.link), Files(d, p.generation))
  }

  datatype ApplyRefusal =
    | PendingHere | Fenced | MaterialInvalid | CurrentUnreadable | ActiveDisagrees
    | ProviderChanged | SourceIsCurrent | RevisionOverflow | ArchiveTaken

  datatype Planned = Ready(plan: Plan) | NotReady(reason: ApplyRefusal)

  /** `Interrupted`: a crash, or a write that failed where the command can only stop. */
  datatype ApplyOutcome =
    | ApplyRefused(reason: ApplyRefusal) | Applied(receipt: Receipt) | Restored
    | RecoveryRequired | ApplyInterrupted

  datatype RecoverOutcome =
    | RecoverRefused(reason: RecoverRefusal) | RolledForward | RolledBack | RecoverInterrupted

  /** A step taken by a command that holds two other locks changes nothing of that. */
  lemma LocksIsolate(d: Disk, s: Step, p: Plan)
    requires Inv(d) && Enabled(d, s) && StepBinding(s) != p.binding
    requires s.Prepare? || Pending(d, s.binding).plan.provider.link != p.provider.link
    requires p.generation.link == p.provider.link
    ensures ViewOf(Apply(d, s), p) == ViewOf(d, p)
  {
    Footprint(d, s);
    assert DirInv(d, StepBinding(s));
  }

  function NewPlan(b: Binding, provider: Provider, evidence: Evidence, previous: Option<Receipt>,
                   jti: nat, now: int): Plan
  {
    var expected := if previous.Some? then previous.value.revision else 0;
    Plan(jti, b, expected, expected + 1, evidence, provider,
         GenerationName(provider, expected + 1, evidence, jti),
         if previous.Some? then Some(previous.value.generation) else None,
         if previous.Some? then Some(previous.value.evidence.leaf) else None,
         if previous.Some? then Some(Sha256(previous.value)) else None,
         now, now + TTL)
  }

  /** Nor does such a step change whether another binding fences the link, or what an apply
      that has only checked so far relies on. */
  lemma FenceIsLocked(d: Disk, s: Step, b: Binding, link: Link)
    requires Enabled(d, s) && StepBinding(s) != b
    requires (if s.Prepare? then s.plan else Pending(d, s.binding).plan).provider.link != link
    ensures FencedByOther(Apply(d, s), link, b) == FencedByOther(d, link, b)
    ensures Dir(Apply(d, s), b) == Dir(d, b) && Active(Apply(d, s), link) == Active(d, link)
  {
    Footprint(d, s);
    forall other ensures Fences(Apply(d, s), other, link, b) == Fences(d, other, link, b) {
      if other != StepBinding(s) { assert Dir(Apply(d, s), other) == Dir(d, other); }
    }
    assert forall other :: Fences(d, other, link, b) ==> other in d.dirs;
    assert forall other :: Fences(Apply(d, s), other, link, b) ==> other in Apply(d, s).dirs;
  }

  /** How old the transaction is at each of its checks of the clock, and when it builds its
      receipt. */
  datatype Ages = Ages(staging: int, validating: int, activating: int, reloading: int, verifying: int, committing: int)

  /** What lies outside the host's own files: whether the material is valid, the provider and
      the proxy accept the candidate, the provider reloads and the public endpoint serves the
      new leaf; for a rollback, whether the earlier material is usable and, its link put
      back, served again; and the clock. */
  datatype Verdicts = Verdicts(
    material: bool, candidate: bool, proxy: bool, reload: bool, endpoint: bool,
    usable: bool, served: bool, ages: Ages)

  /** Up to the brink of activation every check passes before the transaction expires. */
  predicate CandidatePasses(v: Verdicts, evidence: Evidence) {
    && v.candidate && (evidence.proxy.Some? ==> v.proxy)
    && v.ages.staging <= TTL && v.ages.validating <= TTL && v.ages.activating <= TTL
  }

  /** So does every one after it; nothing is compared once the endpoint has answered. */
  predicate GoesLive(v: Verdicts) {
    v.reload && v.endpoint && v.ages.reloading <= TTL && v.ages.verifying <= TTL
  }

  predicate ComesBack(v: Verdicts) { v.usable && v.served }

  /** The files rollback removes, in its order. */
  const ROLLBACK_FILES: seq<GenerationFile> :=
    [Manifest, PrivateKey, FullChain, ProxyConf, ProxyTemplate]

  lemma EveryFileNamed(files: set<GenerationFile>)
    requires forall file :: file in ROLLBACK_FILES ==> file !in files
    ensures files == {}
  {
    forall file ensures file !in files {
      match file
      case Manifest => assert file == ROLLBACK_FILES[0];
      case PrivateKey => assert file == ROLLBACK_FILES[1];
      case FullChain => assert file == ROLLBACK_FILES[2];
      case ProxyConf => assert file == ROLLBACK_FILES[3];
      case ProxyTemplate => assert file == ROLLBACK_FILES[4];
    }
  }

  class TlsHost {
    // No write of this class fails, no process is killed and no other command runs.
    const calm: bool
    var dirs: map<Binding, BindingDir>
    var links: map<Link, Generation>
    var generations: map<Generation, set<GenerationFile>>
    var nextJti: nat
    ghost var log: seq<Step>

    ghost function Snap(): Disk reads this {
      Disk(dirs, links, generations, nextJti)
    }

    /** Everything on disk came from a run of the machine. */
    ghost predicate Valid() reads this {
      Runs.IsRun(MACHINE, log) && Runs.After(MACHINE, log) == Snap()
    }

    constructor (calm: bool)
      ensures Valid() && Snap() == FRESH && this.calm == calm
    {
      this.calm := calm;
      dirs, links, generations, nextJti := map[], map[], map[], 0;
      log := [];
    }

    /** Other commands run, holding other locks. */
    method Others(p: Plan)
      requires Valid()
      modifies this
      ensures Valid() && ViewOf(Snap(), p) == old(ViewOf(Snap(), p))
      ensures calm ==> Snap() == old(Snap())
    {
    }

    function DirOf(b: Binding): BindingDir reads this {
      if b in dirs then dirs[b] else EMPTY_DIR
    }

    function ActiveGeneration(link: Link): Option<Generation> reads this {
      if link in links then Some(links[link]) else None
    }

    // ------------------------------------------------------ durable writes

    method PersistPrepared(p: Plan) returns (io: Io)
      requires Valid()
      requires PrepareEnabled(Snap(), p)
      modifies `dirs, `nextJti, `log
      ensures Valid() && log == old(log) + (if io.Done? then [Prepare(p)] else [])
      ensures dirs ==
              if io.Done? then
                old(dirs)[p.binding := old(DirOf(p.binding)).(
                  pending := Some(Transaction(p, Prepared)))]
              else old(dirs)
      ensures calm ==> io.Done?
    {
      io := Attempt(calm);
      if io.Done? {
        Runs.Extend(MACHINE, log, Prepare(p));
        dirs := dirs[p.binding := DirOf(p.binding).(pending := Some(Transaction(p, Prepared)))];
        nextJti := p.jti + 1;
        log := log + [Prepare(p)];
      }
    }

    method PersistPhase(p: Plan, phase: Phase) returns (io: Io)
      requires Valid()
      requires HasPending(Snap(), p.binding) && Pending(Snap(), p.binding).plan == p
      requires AdvanceEnabled(Snap(), DirOf(p.binding), Pending(Snap(), p.binding), phase)
      modifies `dirs, `log
      ensures Valid() && log == old(log) + (if io.Done? then [Advance(p.binding, phase)] else [])
      ensures dirs ==
              if io.Done? then
                old(dirs)[p.binding := old(DirOf(p.binding)).(
                  pending := Some(Transaction(p, phase)))]
              else old(dirs)
      ensures calm ==> io.Done?
    {
      io := Attempt(calm);
      if io.Done? {
        Runs.Extend(MACHINE, log, Advance(p.binding, phase));
        dirs := dirs[p.binding := DirOf(p.binding).(pending := Some(Transaction(p, phase)))];
        log := log + [Advance(p.binding, phase)];
      }
    }

    method CreateGeneration(p: Plan) returns (io: Io)
      requires Valid()
      requires HasPending(Snap(), p.binding) && Pending(Snap(), p.binding).plan == p
      requires StageEnabled(Snap(), p.binding, None)
      modifies `generations, `log
      ensures Valid() && log == old(log) + (if io.Done? then [Stage(p.binding, None)] else [])
      ensures generations == if io.Done? then old(generations)[p.generation := {}] else old(generations)
      ensures calm ==> io.Done?
    {
      io := Attempt(calm);
      if io.Done? {
        Runs.Extend(MACHINE, log, Stage(p.binding, None));
        generations := generations[p.generation := {}];
        log := log + [Stage(p.binding, None)];
      }
    }

    method WriteGenerationFile(p: Plan, file: GenerationFile) returns (io: Io)
      requires Valid()
      requires HasPending(Snap(), p.binding) && Pending(Snap(), p.binding).plan == p
      requires StageEnabled(Snap(), p.binding, Some(file))
      modifies `generations, `log
      ensures Valid() && log == old(log) + (if io.Done? then [Stage(p.binding, Some(file))] else [])
      ensures generations ==
              if io.Done? then old(generations)[p.generation := old(generations)[p.generation] + {file}]
              else old(generations)
      ensures calm ==> io.Done?
    {
      io := Attempt(calm);
      if io.Done? {
        Runs.Extend(MACHINE, log, Stage(p.binding, Some(file)));
        generations := generations[p.generation := generations[p.generation] + {file}];
        log := log + [Stage(p.binding, Some(file))];
      }
    }

    method ReplaceLink(p: Plan) returns (io: Io)
      requires Valid()
      requires HasPending(Snap(), p.binding) && Pending(Snap(), p.binding).plan == p
      requires ActivateEnabled(Snap(), p.binding)
      modifies `links, `log
      ensures Valid() && log == old(log) + (if io.Done? then [Activate(p.binding)] else [])
      ensures links == if io.Done? then old(links)[p.provider.link := p.generation] else old(links)
      ensures calm ==> io.Done?
    {
      io := Attempt(calm);
      if io.Done? {
        Runs.Extend(MACHINE, log, Activate(p.binding));
        links := links[p.provider.link := p.generation];
        log := log + [Activate(p.binding)];
      }
    }

    /** Puts the previous link target back, or removes the link when there was none. */
    method RestoreLink(p: Plan) returns (io: Io)
      requires Valid()
      requires HasPending(Snap(), p.binding) && Pending(Snap(), p.binding).plan == p
      requires Undecided(Snap(), p.binding)
      modifies `links, `log
      ensures Valid() && log == old(log) + (if io.Done? then [Restore(p.binding)] else [])
      ensures links ==
              if io.Done? then
                (match p.previousGeneration
                 case Some(g) => old(links)[p.provider.link := g]
                 case None => old(links) - {p.provider.link})
              else old(links)
      ensures calm ==> io.Done?
    {
      io := Attempt(calm);
      if io.Done? {
        Runs.Extend(MACHINE, log, Restore(p.binding));
        if p.previousGeneration.Some? {
          links := links[p.provider.link := p.previousGeneration.value];
        } else {
          links := links - {p.provider.link};
        }
        log := log + [Restore(p.binding)];
      }
    }

    method RemoveGenerationFile(p: Plan, file: GenerationFile) returns (io: Io)
      requires Valid()
      requires HasPending(Snap(), p.binding) && Pending(Snap(), p.binding).plan == p
      requires DiscardEnabled(Snap(), p.binding, Some(file))
      modifies `generations, `log
      ensures Valid() && log == old(log) + (if io.Done? then [Discard(p.binding, Some(file))] else [])
      ensures generations ==
              if io.Done? then old(generations)[p.generation := old(generations)[p.generation] - {file}]
              else old(generations)
      ensures calm ==> io.Done?
    {
      io := Attempt(calm);
      if io.Done? {
        Runs.Extend(MACHINE, log, Discard(p.binding, Some(file)));
        generations := generations[p.generation := generations[p.generation] - {file}];
        log := log + [Discard(p.binding, Some(file))];
      }
    }

    method RemoveGeneration(p: Plan) returns (io: Io)
      requires Valid()
      requires HasPending(Snap(), p.binding) && Pending(Snap(), p.binding).plan == p
      requires DiscardEnabled(Snap(), p.binding, None)
      modifies `generations, `log
      ensures Valid() && log == old(log) + (if io.Done? then [Discard(p.binding, None)] else [])
      ensures generations == if io.Done? then old(generations) - {p.generation} else old(generations)
      ensures calm ==> io.Done?
    {
      io := Attempt(calm);
      if io.Done? {
        Runs.Extend(MACHINE, log, Discard(p.binding, None));
        generations := generations - {p.generation};
        log := log + [Discard(p.binding, None)];
      }
    }

    method WriteArchive(p: Plan, receipt: Receipt) returns (io: Io)
      requires Valid()
      requires HasPending(Snap(), p.binding) && Pending(Snap(), p.binding).plan == p
      requires ArchiveEnabled(Snap(), p.binding) && receipt == ReceiptOf(p, receipt.verifiedAt)
      modifies `dirs, `log
      ensures Valid() && log == old(log) + (if io.Done? then [Archive(p.binding, receipt.verifiedAt)] else [])
      ensures dirs ==
              if io.Done? then
                old(dirs)[p.binding := old(DirOf(p.binding)).(
                  archive := old(DirOf(p.binding)).archive[p.target := receipt])]
              else old(dirs)
      ensures calm ==> io.Done?
    {
      io := Attempt(calm);
      if io.Done? {
        Runs.Extend(MACHINE, log, Archive(p.binding, receipt.verifiedAt));
        var dir := DirOf(p.binding);
        dirs := dirs[p.binding := dir.(archive := dir.archive[p.target := receipt])];
        log := log + [Archive(p.binding, receipt.verifiedAt)];
      }
    }

    method WriteCurrent(p: Plan, receipt: Receipt) returns (io: Io)
      requires Valid()
      requires HasPending(Snap(), p.binding) && Pending(Snap(), p.binding).plan == p
      requires !Undecided(Snap(), p.binding) && DirOf(p.binding).archive[p.target] == receipt
      modifies `dirs, `log
      ensures Valid() && log == old(log) + (if io.Done? then [Promote(p.binding)] else [])
      ensures dirs ==
              if io.Done? then
                old(dirs)[p.binding := old(DirOf(p.binding)).(
                  current := Some(receipt))]
              else old(dirs)
      ensures calm ==> io.Done?
    {
      io := Attempt(calm);
      if io.Done? {
        Runs.Extend(MACHINE, log, Promote(p.binding));
        dirs := dirs[p.binding := DirOf(p.binding).(current := Some(receipt))];
        log := log + [Promote(p.binding)];
      }
    }

    method WriteSettled(p: Plan, phase: Phase) returns (io: Io)
      requires Valid()
      requires HasPending(Snap(), p.binding) && Pending(Snap(), p.binding).plan == p
      requires Final(Snap(), DirOf(p.binding), Pending(Snap(), p.binding), phase)
      modifies `dirs, `log
      ensures Valid() && log == old(log) + (if io.Done? then [Settle(p.binding, phase)] else [])
      ensures dirs ==
              if io.Done? then
                old(dirs)[p.binding := old(DirOf(p.binding)).(
                  settled := old(DirOf(p.binding)).settled[p.jti := Transaction(p, phase)])]
              else old(dirs)
      ensures calm ==> io.Done?
    {
      io := Attempt(calm);
      if io.Done? {
        Runs.Extend(MACHINE, log, Settle(p.binding, phase));
        var dir := DirOf(p.binding);
        dirs := dirs[p.binding := dir.(settled := dir.settled[p.jti := Transaction(p, phase)])];
        log := log + [Settle(p.binding, phase)];
      }
    }

    method RemovePending(b: Binding) returns (io: Io)
      requires Valid()
      requires HasPending(Snap(), b) && RetireEnabled(Snap(), b)
      modifies `dirs, `log
      ensures Valid() && log == old(log) + (if io.Done? then [Retire(b)] else [])
      ensures dirs == if io.Done? then old(dirs)[b := old(DirOf(b)).(pending := None)] else old(dirs)
      ensures calm ==> io.Done?
    {
      io := Attempt(calm);
      if io.Done? {
        Runs.Extend(MACHINE, log, Retire(b));
        dirs := dirs[b := DirOf(b).(pending := None)];
        log := log + [Retire(b)];
      }
    }

    // ------------------------------------------------------- stages of apply

    /** The journal of this binding is durably in `phase`; the rest of its directory is `base`. */
    ghost predicate Pends(base: BindingDir, p: Plan, phase: Phase) reads this {
      && DirOf(p.binding) == base.(pending := Some(Transaction(p, phase)))
      && p.generation.link == p.provider.link
    }

    /** Memory has reached `phase`; the durable phase may be behind it. */
    ghost predicate Behind(base: BindingDir, p: Plan, phase: Phase) reads this {
      var pending := DirOf(p.binding).pending;
      && pending.Some? && Pends(base, p, pending.value.phase)
      && (MayHaveActivated(pending.value.phase) ==> MayHaveActivated(phase))
    }

    ghost predicate Live(p: Plan) reads this {
      && ActiveGeneration(p.provider.link) == Some(p.generation)
      && Complete(Snap(), p.generation, p.evidence)
    }

    /** `ensure_transaction_fresh`, at a transaction of this age. */
    predicate InTime(p: Plan, age: int) { p.createdAt + age <= p.expiresAt }

    method StageGeneration(p: Plan, ghost base: BindingDir) returns (io: Io)
      requires Valid() && Pends(base, p, Prepared)
      modifies this
      ensures Valid() && Pends(base, p, Prepared)
      ensures io.Done? ==> Complete(Snap(), p.generation, p.evidence)
      ensures calm ==> links == old(links) && (if p.generation in old(generations) then io.Failed? else io.Done?)
    {
      Others(p);
      if p.generation in generations { return Failed; }
      io := CreateGeneration(p);
      if !io.Done? { return; }
      Others(p);
      io := WriteGenerationFile(p, FullChain);
      if !io.Done? { return; }
      Others(p);
      io := WriteGenerationFile(p, PrivateKey);
      if !io.Done? { return; }
      Others(p);
      io := WriteGenerationFile(p, Manifest);
      if !io.Done? { return; }
      if p.evidence.proxy.Some? {
        io := StageProxy(p, base);
      }
    }

    method StageProxy(p: Plan, ghost base: BindingDir) returns (io: Io)
      requires Valid() && Pends(base, p, Prepared) && p.generation in generations
      requires {FullChain, PrivateKey, Manifest} <= generations[p.generation]
      modifies this
      ensures Valid() && Pends(base, p, Prepared)
      ensures io.Done? ==> Complete(Snap(), p.generation, p.evidence)
      ensures calm ==> links == old(links) && io.Done?
    {
      Others(p);
      io := WriteGenerationFile(p, ProxyTemplate);
      if !io.Done? { return; }
      Others(p);
      io := WriteGenerationFile(p, ProxyConf);
    }

    /** Stages the generation and records that it is complete. */
    method StageCandidate(p: Plan, age: int, ghost base: BindingDir) returns (phase: Phase, io: Io)
      requires Valid() && Pends(base, p, Prepared) && p.expiresAt == p.createdAt + TTL
      modifies this
      ensures Valid() && Behind(base, p, phase) && !MayHaveActivated(phase)
      ensures io.Done? ==>
                phase.Staged? && Pends(base, p, phase) && Complete(Snap(), p.generation, p.evidence) && age <= TTL
      ensures calm ==>
                && links == old(links)
                && (if p.generation !in old(generations) && age <= TTL then io.Done? else io.Failed?)
    {
      phase := Prepared;
      if !InTime(p, age) { return phase, Failed; }
      io := StageGeneration(p, base);
      if !io.Done? { return; }
      Others(p);
      phase := Staged;
      io := PersistPhase(p, phase);
    }

    /** The provider and the proxy accept the staged candidate, all of it in time. */
    predicate CandidateValid(p: Plan, v: Verdicts) {
      && InTime(p, v.ages.validating) && v.candidate
      && (p.evidence.proxy.Some? ==> v.proxy)
      && InTime(p, v.ages.activating)
    }

    /** Takes the transaction to the brink of activation. */
    method PrepareCandidate(p: Plan, v: Verdicts, ghost base: BindingDir) returns (phase: Phase, io: Io)
      requires Valid() && Pends(base, p, Prepared) && p.expiresAt == p.createdAt + TTL
      modifies this
      ensures Valid() && Behind(base, p, phase)
      ensures io.Done? ==>
                phase.Activating? && Pends(base, p, phase) && Complete(Snap(), p.generation, p.evidence)
                && CandidatePasses(v, p.evidence)
      ensures calm ==>
                && links == old(links)
                && (if p.generation !in old(generations) && CandidatePasses(v, p.evidence) then io.Done?
                    else io.Failed? && !MayHaveActivated(phase))
    {
      phase, io := StageCandidate(p, v.ages.staging, base);
      if !io.Done? { return; }
      if !CandidateValid(p, v) { return phase, Failed; }
      Others(p);
      phase := Activating;
      io := PersistPhase(p, phase);
    }

    /** Replaces the link, reloads the proxy and proves the public endpoint. */
    method GoLive(p: Plan, v: Verdicts, ghost base: BindingDir) returns (phase: Phase, io: Io)
      requires Valid() && Pends(base, p, Activating) && Complete(Snap(), p.generation, p.evidence)
      requires p.expiresAt == p.createdAt + TTL
      modifies this
      ensures Valid() && Behind(base, p, phase) && MayHaveActivated(phase)
      ensures io.Done? ==> phase.Verified? && Pends(base, p, phase) && Live(p) && GoesLive(v)
      ensures calm && old(ActiveGeneration(p.provider.link)) == p.previousGeneration ==>
                if GoesLive(v) then io.Done? else io.Failed?
    {
      phase := Activating;
      Others(p);
      if ActiveGeneration(p.provider.link) != p.previousGeneration { return phase, Failed; }
      io := ReplaceLink(p);
      if !io.Done? { return; }
      phase := Activated;
      io := Checkpoint(p, Activating, phase, true, 0, base);
      if !io.Done? { return; }
      phase := Reloaded;
      io := Checkpoint(p, Activated, phase, v.reload, v.ages.reloading, base);
      if !io.Done? { return; }
      phase := Verified;
      io := Checkpoint(p, Reloaded, phase, v.endpoint, v.ages.verifying, base);
    }

    /** Runs the check that `phase` stands for, then makes the phase durable. */
    method Checkpoint(p: Plan, ghost before: Phase, phase: Phase, proven: bool, age: int, ghost base: BindingDir)
      returns (io: Io)
      requires p.expiresAt == p.createdAt + TTL
      requires Valid() && Pends(base, p, before) && Live(p)
      requires (before.Activating? && phase.Activated?) || (before.Activated? && phase.Reloaded?)
               || (before.Reloaded? && phase.Verified?)
      modifies this
      ensures Valid() && Live(p)
      ensures Pends(base, p, if io.Done? then phase else before)
      ensures io.Done? && !phase.Activated? ==> proven && age <= TTL
      ensures calm ==> if (proven && age <= TTL) || phase.Activated? then io.Done? else io.Failed?
    {
      if !phase.Activated? && !(InTime(p, age) && proven) { return Failed; }
      Others(p);
      io := PersistPhase(p, phase);
    }

    // ------------------------------------------------------------- rollback

    /** Removes the files and then the directory of a generation that is not active. */
    method RemoveInactiveGeneration(p: Plan, ghost base: BindingDir, ghost durable: Phase) returns (io: Io)
      requires Valid() && Pends(base, p, durable) && p.target !in base.archive
      modifies this
      ensures Valid() && Pends(base, p, durable)
      ensures ActiveGeneration(p.provider.link) == old(ActiveGeneration(p.provider.link))
      ensures io.Done? ==> p.generation !in generations
      ensures calm ==> if old(ActiveGeneration(p.provider.link)) == Some(p.generation) then io.Failed? else io.Done?
    {
      Others(p);
      if ActiveGeneration(p.provider.link) == Some(p.generation) { return Failed; }
      io := RemoveFiles(p, base, durable);
      if io.Done? && p.generation in generations {
        EveryFileNamed(generations[p.generation]);
        io := RemoveGeneration(p);
      }
    }

    method RemoveFiles(p: Plan, ghost base: BindingDir, ghost durable: Phase) returns (io: Io)
      requires Valid() && Pends(base, p, durable) && p.target !in base.archive
      requires ActiveGeneration(p.provider.link) != Some(p.generation)
      modifies this
      ensures Valid() && Pends(base, p, durable)
      ensures ActiveGeneration(p.provider.link) == old(ActiveGeneration(p.provider.link))
      ensures io.Done? && p.generation in generations ==>
                forall file :: file in ROLLBACK_FILES ==> file !in generations[p.generation]
      ensures calm ==> io.Done?
    {
      io := Done;
      for i := 0 to |ROLLBACK_FILES|
        invariant Valid() && Pends(base, p, durable)
        invariant ActiveGeneration(p.provider.link) == old(ActiveGeneration(p.provider.link))
        invariant io.Done? && (p.generation in generations ==>
                    forall k | 0 <= k < i :: ROLLBACK_FILES[k] !in generations[p.generation])
      {
        io := RemoveIfPresent(p, ROLLBACK_FILES[i], base, durable);
        if !io.Done? { return; }
      }
    }

    /** `remove_file_durable`: an absent file is as good as removed. */
    method RemoveIfPresent(p: Plan, file: GenerationFile, ghost base: BindingDir, ghost durable: Phase)
      returns (io: Io)
      requires Valid() && Pends(base, p, durable) && p.target !in base.archive
      requires ActiveGeneration(p.provider.link) != Some(p.generation)
      modifies this
      ensures Valid() && Pends(base, p, durable)
      ensures ActiveGeneration(p.provider.link) == old(ActiveGeneration(p.provider.link))
      ensures Files(Snap(), p.generation) ==
              match old(Files(Snap(), p.generation))
              case None => None
              case Some(files) => Some(if io.Done? then files - {file} else files)
      ensures calm ==> io.Done?
    {
      io := Done;
      if p.generation in generations {
        io := RemoveGenerationFile(p, file);
      }
      Others(p);
    }

    /** Puts the earlier link back and removes the candidate. */
    method RollBack(p: Plan, phase: Phase, v: Verdicts, ghost base: BindingDir) returns (io: Io)
      requires Valid() && Behind(base, p, phase) && p.target !in base.archive
      modifies this
      ensures Valid() && Behind(base, p, phase)
      ensures DirOf(p.binding) == old(DirOf(p.binding))
      ensures io.Done? ==>
                ActiveGeneration(p.provider.link) == p.previousGeneration && p.generation !in generations
      ensures calm ==> if ComesBack(v) || !MayHaveActivated(phase) then io.Done? else io.Failed?
    {
      ghost var durable := DirOf(p.binding).pending.value.phase;
      Others(p);
      if MayHaveActivated(phase) {
        io := RestorePrevious(p, v, base, durable);
        if !io.Done? { return; }
      } else {
        DurablePhaseBound(p);
      }
      PreviousIsEarlier(p);
      io := RemoveInactiveGeneration(p, base, durable);
    }

    /** Before `Activating` is durable the link still is the earlier one. */
    lemma DurablePhaseBound(p: Plan)
      requires Valid() && HasPending(Snap(), p.binding) && Pending(Snap(), p.binding).plan == p
      requires Undecided(Snap(), p.binding) && !MayHaveActivated(Pending(Snap(), p.binding).phase)
      ensures ActiveGeneration(p.provider.link) == p.previousGeneration
    {
      PendingStands(log, p.binding);
    }

    /** The generation to go back to is another one, and proves how it was committed. */
    lemma PreviousIsEarlier(p: Plan)
      requires Valid() && HasPending(Snap(), p.binding) && Pending(Snap(), p.binding).plan == p
      requires Undecided(Snap(), p.binding)
      ensures p.previousGeneration != Some(p.generation)
      ensures DirOf(p.binding).current.Some? ==> CommittedOnDisk(DirOf(p.binding), DirOf(p.binding).current.value)
    {
      RunKeepsInv(log);
      assert DirInv(Snap(), p.binding);
      var dir := Dir(Snap(), p.binding);
      if dir.current.Some? { assert ArchivedReceipt(Snap(), p.binding, dir, dir.current.value.revision); }
    }

    method RestorePrevious(p: Plan, v: Verdicts, ghost base: BindingDir, ghost durable: Phase) returns (io: Io)
      requires Valid() && Pends(base, p, durable) && p.target !in base.archive
      modifies this
      ensures Valid() && Pends(base, p, durable)
      ensures io.Done? ==> ActiveGeneration(p.provider.link) == p.previousGeneration && ComesBack(v)
      ensures calm ==> if ComesBack(v) then io.Done? else io.Failed?
    {
      PreviousIsEarlier(p);
      var dir := DirOf(p.binding);
      if dir.current.Some? && !CommittedOnDisk(dir, dir.current.value) { return Failed; }
      if !v.usable { return Failed; }
      io := RestoreLink(p);
      if !io.Done? { return; }
      Others(p);
      if !v.served || ActiveGeneration(p.provider.link) != p.previousGeneration { return Failed; }
    }

    // --------------------------------------------------------------- commit

    /** Writes receipts/<target> and receipt.json, in that order, refusing other evidence. */
    method PersistReceipt(p: Plan, receipt: Receipt) returns (io: Io)
      requires Valid() && HasPending(Snap(), p.binding) && Pending(Snap(), p.binding).plan == p
      requires if p.target in DirOf(p.binding).archive
               then DirOf(p.binding).archive[p.target] == receipt
               else ArchiveEnabled(Snap(), p.binding) && receipt == ReceiptOf(p, receipt.verifiedAt)
      requires p.generation.link == p.provider.link
      modifies this
      ensures Valid() && DirOf(p.binding).pending == old(DirOf(p.binding)).pending
      ensures DirOf(p.binding).settled == old(DirOf(p.binding)).settled
      ensures ActiveGeneration(p.provider.link) == old(ActiveGeneration(p.provider.link))
      ensures Files(Snap(), p.generation) == old(Files(Snap(), p.generation))
      ensures io.Done? ==>
                && DirOf(p.binding).archive == old(DirOf(p.binding)).archive[p.target := receipt]
                && DirOf(p.binding).current == Some(receipt)
      ensures !io.Done? ==>
                && DirOf(p.binding).current == old(DirOf(p.binding)).current
                && (|| DirOf(p.binding).archive == old(DirOf(p.binding)).archive
                    || DirOf(p.binding).archive == old(DirOf(p.binding)).archive[p.target := receipt])
      ensures calm ==> io.Done?
    {
      var archive := DirOf(p.binding).archive;
      if p.target in archive {
        if archive[p.target] != receipt { return Failed; }
      } else {
        io := WriteArchive(p, receipt);
        if !io.Done? { return; }
      }
      Others(p);
      io := WriteCurrent(p, receipt);
    }

    /** Archives the settled transaction and then removes the journal. */
    method Finalize(p: Plan, phase: Phase) returns (io: Io)
      requires Valid() && HasPending(Snap(), p.binding) && Pending(Snap(), p.binding).plan == p
      requires Final(Snap(), DirOf(p.binding), Pending(Snap(), p.binding), phase)
      requires p.generation.link == p.provider.link
      modifies this
      ensures Valid() && ActiveGeneration(p.provider.link) == old(ActiveGeneration(p.provider.link))
      ensures Files(Snap(), p.generation) == old(Files(Snap(), p.generation))
      ensures DirOf(p.binding).archive == old(DirOf(p.binding)).archive
      ensures DirOf(p.binding).current == old(DirOf(p.binding)).current
      ensures io.Done? ==>
                && DirOf(p.binding).pending.None?
                && DirOf(p.binding).settled ==
                   old(DirOf(p.binding)).settled[p.jti := Transaction(p, phase)]
      ensures !io.Done? ==> DirOf(p.binding).pending == old(DirOf(p.binding)).pending
      ensures calm ==> io.Done?
    {
      io := WriteSettled(p, phase);
      if !io.Done? { return; }
      Others(p);
      io := RemovePending(p.binding);
    }

    // ---------------------------------------------------------------- apply

    /** `ensure_provider_not_pending`: no other binding has a pending transaction here. */
    method ProviderFenced(link: Link, b: Binding) returns (fenced: bool)
      ensures fenced <==> FencedByOther(Snap(), link, b)
    {
      fenced := false;
      var todo := dirs.Keys;
      while todo != {}
        invariant todo <= dirs.Keys
        invariant fenced <==> (exists other :: other in dirs && other !in todo && Fences(Snap(), other, link, b))
        decreases |todo|
      {
        var other :| other in todo;
        if Fences(Disk(dirs, links, generations, nextJti), other, link, b) {
          fenced := true;
        }
        todo := todo - {other};
      }
    }

    /** Each refusal has its ground; two of them cannot be met at all. */
    ghost predicate Justified(reason: ApplyRefusal, b: Binding, provider: Provider, evidence: Evidence, v: Verdicts)
      reads this
    {
      var current := DirOf(b).current;
      match reason
      case PendingHere => DirOf(b).pending.Some?
      case Fenced => FencedByOther(Snap(), provider.link, b)
      case MaterialInvalid => !v.material
      case CurrentUnreadable => current.Some? && !Readable(current.value)
      case ActiveDisagrees => !ActiveAgrees(Snap(), provider.link, current)
      case SourceIsCurrent => current.Some? && SameSource(current.value, evidence)
      case RevisionOverflow => Revision(DirOf(b)) >= MAX_REVISION
      case ProviderChanged => false
      case ArchiveTaken => false
    }

    /** The checks of `apply` before its first write, in its order. */
    method CheckApply(b: Binding, provider: Provider, evidence: Evidence, v: Verdicts)
      returns (refusal: Option<ApplyRefusal>)
      requires Valid()
      ensures refusal.None? <==> Admissible(b, provider, evidence, v)
      ensures refusal.Some? ==> Justified(refusal.value, b, provider, evidence, v)
      ensures DirOf(b).pending.Some? ==> refusal == Some(PendingHere)
    {
      if DirOf(b).pending.Some? { return Some(PendingHere); }
      var fenced := ProviderFenced(provider.link, b);
      if fenced { return Some(Fenced); }
      if !v.material { return Some(MaterialInvalid); }
      refusal := CheckCurrent(b, provider, evidence);
    }

    /** The new evidence may follow what is current, and its revision is free. */
    predicate Supersedes(b: Binding, provider: Provider, evidence: Evidence) reads this {
      var dir := DirOf(b);
      && ActiveAgrees(Disk(dirs, links, generations, nextJti), provider.link, dir.current)
      && Revision(dir) < MAX_REVISION && Revision(dir) + 1 !in dir.archive
      && (dir.current.Some? ==>
            && Readable(dir.current.value) && CommittedOnDisk(dir, dir.current.value)
            && !SameSource(dir.current.value, evidence))
    }

    ghost predicate Admissible(b: Binding, provider: Provider, evidence: Evidence, v: Verdicts) reads this {
      && DirOf(b).pending.None? && !FencedByOther(Snap(), provider.link, b)
      && v.material && Supersedes(b, provider, evidence)
    }

    method CheckCurrent(b: Binding, provider: Provider, evidence: Evidence) returns (refusal: Option<ApplyRefusal>)
      requires Valid() && DirOf(b).pending.None?
      ensures refusal.None? <==> Supersedes(b, provider, evidence)
      ensures refusal.Some? ==> !refusal.value.MaterialInvalid?
      ensures refusal.Some? ==> forall v :: Justified(refusal.value, b, provider, evidence, v)
    {
      IdleBinding(b);
      var dir := DirOf(b);
      if dir.current.Some? && !Readable(dir.current.value) { return Some(CurrentUnreadable); }
      if !ActiveAgrees(Disk(dirs, links, generations, nextJti), provider.link, dir.current) {
        return Some(ActiveDisagrees);
      }
      if dir.current.Some? && !CommittedOnDisk(dir, dir.current.value) { return Some(ProviderChanged); }
      if dir.current.Some? && SameSource(dir.current.value, evidence) { return Some(SourceIsCurrent); }
      if Revision(dir) >= MAX_REVISION { return Some(RevisionOverflow); }
      if Revision(dir) + 1 in dir.archive { return Some(ArchiveTaken); }
      refusal := None;
    }

    /** Other commands run between the checks and the first write. They hold other deployment
        locks, and the link lock keeps them from making or ending a transaction on this link. */
    method OthersBefore(b: Binding, link: Link)
      requires Valid()
      modifies this
      ensures Valid() && DirOf(b) == old(DirOf(b)) && ActiveGeneration(link) == old(ActiveGeneration(link))
      ensures FencedByOther(Snap(), link, b) == old(FencedByOther(Snap(), link, b))
      ensures calm ==> Snap() == old(Snap())
    {
    }

    /** The plan of an apply whose checks pass, drawn while other commands go on. */
    method PlanApply(b: Binding, provider: Provider, evidence: Evidence, v: Verdicts)
      returns (planned: Planned)
      requires Valid()
      modifies this
      ensures Valid() && DirOf(b) == old(DirOf(b))
      ensures ActiveGeneration(provider.link) == old(ActiveGeneration(provider.link))
      ensures planned.Ready? ==>
                && PrepareEnabled(Snap(), planned.plan)
                && planned.plan.binding == b && planned.plan.provider == provider
                && planned.plan.evidence == evidence
                && planned.plan.expected == Revision(DirOf(b)) && planned.plan.target <= MAX_REVISION
      ensures planned.Ready? <==> old(Admissible(b, provider, evidence, v))
      ensures planned.NotReady? ==> Snap() == old(Snap()) && old(Justified(planned.reason, b, provider, evidence, v))
      ensures calm ==> Snap() == old(Snap())
      ensures old(DirOf(b)).pending.Some? ==> planned == NotReady(PendingHere)
    {
      var refusal := CheckApply(b, provider, evidence, v);
      if refusal.Some? { return NotReady(refusal.value); }
      OthersBefore(b, provider.link);
      var now := Now();
      MayStart(b, provider, evidence, now);
      planned := Ready(NewPlan(b, provider, evidence, DirOf(b).current, nextJti, now));
    }

    lemma MayStart(b: Binding, provider: Provider, evidence: Evidence, now: int)
      requires DirOf(b).pending.None? && !FencedByOther(Snap(), provider.link, b) && Supersedes(b, provider, evidence)
      ensures PrepareEnabled(Snap(), NewPlan(b, provider, evidence, DirOf(b).current, nextJti, now))
    {
    }

    /** The next revision is free, and the current one proves how it was committed. */
    lemma IdleBinding(b: Binding)
      requires Valid() && DirOf(b).pending.None?
      ensures Revision(DirOf(b)) + 1 !in DirOf(b).archive
      ensures DirOf(b).current.Some? ==> CommittedOnDisk(DirOf(b), DirOf(b).current.value)
    {
      CrashAtomicity(log, b);
    }

    /** Installs new material, or leaves the earlier revision in place, or leaves a journal
        from which `Recover` finishes one or the other. */
    method Apply(b: Binding, provider: Provider, evidence: Evidence, v: Verdicts) returns (outcome: ApplyOutcome)
      requires Valid()
      modifies this
      ensures Valid()
      ensures DirOf(b).archive == old(DirOf(b)).archive || CommittedOneMore(old(DirOf(b)), DirOf(b), provider, evidence)
      ensures old(DirOf(b)).pending.Some? ==> outcome == ApplyRefused(PendingHere)
      ensures outcome.ApplyRefused? <==> !old(Admissible(b, provider, evidence, v))
      ensures outcome.ApplyRefused? ==>
                Snap() == old(Snap()) && old(Justified(outcome.reason, b, provider, evidence, v))
      ensures outcome == ApplyRefused(SourceIsCurrent) ==>
                && old(DirOf(b)).current.Some?
                && var was := old(DirOf(b)).current.value.evidence;
                && was.source == evidence.source && was.proxy == evidence.proxy
                && was.providerConfig == evidence.providerConfig && was.trustAnchors == evidence.trustAnchors
      ensures outcome.Applied? ==>
                var r := outcome.receipt;
                var was := old(DirOf(b));
                && r.binding == b && r.provider == provider && r.evidence == evidence
                && r.revision == Revision(was) + 1 && PassedAll(v, r)
                && DirOf(b).pending.None? && DirOf(b).current == Some(r)
                && DirOf(b).archive == was.archive[r.revision := r]
                && DirOf(b).settled.Keys == was.settled.Keys + {r.jti}
                && ActiveGeneration(provider.link) == Some(r.generation)
                && Whole(Snap(), r.generation, evidence)
      ensures outcome.Restored? ==>
                && DirOf(b).pending.None? && DirOf(b).current == old(DirOf(b)).current
                && DirOf(b).archive == old(DirOf(b)).archive
                && ActiveGeneration(provider.link) == old(ActiveGeneration(provider.link))
      ensures outcome.RecoveryRequired? ==>
                DirOf(b).pending.Some? && DirOf(b).archive == old(DirOf(b)).archive
      ensures calm && !outcome.ApplyRefused? ==> EndsAs(outcome, v, evidence)
    {
      var planned := PlanApply(b, provider, evidence, v);
      if planned.NotReady? { return ApplyRefused(planned.reason); }
      PlanStartsHere(planned.plan);
      NewGenerationIsFree(log, planned.plan);
      ghost var was := DirOf(b);
      outcome := RunPlan(planned.plan, v);
      NextIsCommitted(was, DirOf(b), planned.plan);
    }

    /** Where a plan that may be journaled starts from. */
    lemma PlanStartsHere(p: Plan)
      requires PrepareEnabled(Snap(), p)
      ensures DirOf(p.binding).pending.None? && p.target == Revision(DirOf(p.binding)) + 1
      ensures p.target !in DirOf(p.binding).archive && p.generation.link == p.provider.link
      ensures p.previousGeneration == ActiveGeneration(p.provider.link)
    {
    }

    /** Journals the plan and executes it. */
    method RunPlan(p: Plan, v: Verdicts) returns (outcome: ApplyOutcome)
      requires Valid() && PrepareEnabled(Snap(), p) && p.generation !in generations
      modifies this
      ensures Valid() && !outcome.ApplyRefused?
      ensures outcome.Applied? ==>
                AppliedTo(old(DirOf(p.binding)), p, outcome.receipt) && PassedAll(v, outcome.receipt)
      ensures ArchivesAtMost(old(DirOf(p.binding)), DirOf(p.binding), p)
      ensures outcome.Restored? ==>
                && DirOf(p.binding).pending.None? && DirOf(p.binding).current == old(DirOf(p.binding)).current
                && DirOf(p.binding).archive == old(DirOf(p.binding)).archive
                && ActiveGeneration(p.provider.link) == old(ActiveGeneration(p.provider.link))
      ensures outcome.RecoveryRequired? ==>
                DirOf(p.binding).pending.Some? && DirOf(p.binding).archive == old(DirOf(p.binding)).archive
      ensures calm ==> EndsAs(outcome, v, p.evidence)
    {
      PlanStartsHere(p);
      ghost var base := DirOf(p.binding);
      var io := PersistPrepared(p);
      if !io.Done? { return ApplyInterrupted; }
      outcome := Execute(p, v, base);
    }

    method Execute(p: Plan, v: Verdicts, ghost base: BindingDir) returns (outcome: ApplyOutcome)
      requires Valid() && Pends(base, p, Prepared) && p.expiresAt == p.createdAt + TTL
      requires base.pending.None? && p.target !in base.archive
      modifies this
      ensures Valid() && !outcome.ApplyRefused?
      ensures outcome.Applied? ==> AppliedTo(base, p, outcome.receipt) && PassedAll(v, outcome.receipt)
      ensures ArchivesAtMost(base, DirOf(p.binding), p)
      ensures outcome.Restored? ==> RestoredTo(base, p)
      ensures outcome.RecoveryRequired? ==>
                DirOf(p.binding).pending.Some? && DirOf(p.binding).archive == base.archive
      ensures calm && old(p.generation !in generations && ActiveGeneration(p.provider.link) == p.previousGeneration)
              ==> EndsAs(outcome, v, p.evidence)
    {
      var phase, io := PrepareCandidate(p, v, base);
      if io.Done? {
        phase, io := GoLive(p, v, base);
      }
      if io.Crashed? { return ApplyInterrupted; }
      if io.Done? {
        outcome := Commit(p, v.ages.committing, base);
      } else {
        outcome := Abandon(p, phase, v, base);
      }
    }

    /** Nothing is committed that failed a check or expired before it; and the receipt says
        when it was built. */
    predicate PassedAll(v: Verdicts, r: Receipt) {
      CandidatePasses(v, r.evidence) && GoesLive(v) && r.verifiedAt == r.createdAt + v.ages.committing
    }

    /** How an undisturbed apply ends, once its plan is journaled. */
    predicate EndsAs(outcome: ApplyOutcome, v: Verdicts, evidence: Evidence) {
      if CandidatePasses(v, evidence) && GoesLive(v) then outcome.Applied?
      else if !CandidatePasses(v, evidence) || ComesBack(v) then outcome.Restored?
      else outcome.RecoveryRequired?
    }

    ghost predicate AppliedTo(base: BindingDir, p: Plan, r: Receipt) reads this {
      && r == ReceiptOf(p, r.verifiedAt)
      && DirOf(p.binding) == BindingDir(None, Some(r), base.archive[p.target := r],
                                        base.settled[p.jti := Transaction(p, Committed)])
      && Live(p)
    }

    ghost predicate RestoredTo(base: BindingDir, p: Plan) reads this {
      && DirOf(p.binding) == base.(settled := base.settled[p.jti := Transaction(p, Phase.RolledBack)])
      && ActiveGeneration(p.provider.link) == p.previousGeneration
      && p.generation !in generations
    }

    /** The receipt carries the time it is built, which nothing compares with the expiry. */
    method Commit(p: Plan, age: int, ghost base: BindingDir) returns (outcome: ApplyOutcome)
      requires Valid() && Pends(base, p, Verified) && Live(p)
      requires base.pending.None? && p.target !in base.archive
      modifies this
      ensures Valid() && (outcome.Applied? || outcome.ApplyInterrupted?)
      ensures outcome.Applied? ==>
                AppliedTo(base, p, outcome.receipt) && outcome.receipt.verifiedAt == p.createdAt + age
      ensures ArchivesAtMost(base, DirOf(p.binding), p)
      ensures calm ==> !outcome.ApplyInterrupted?
    {
      var receipt := ReceiptOf(p, p.createdAt + age);
      Others(p);
      var io := PersistReceipt(p, receipt);
      if !io.Done? { return ApplyInterrupted; }
      var done := CloseCommitted(p);
      outcome := if done then Applied(receipt) else ApplyInterrupted;
    }

    /** Marks the journal committed, archives it and removes it. */
    method CloseCommitted(p: Plan) returns (done: bool)
      requires Valid() && HasPending(Snap(), p.binding) && Pending(Snap(), p.binding).plan == p
      requires Promoted(DirOf(p.binding), p) && p.generation.link == p.provider.link
      modifies this
      ensures Valid()
      ensures ActiveGeneration(p.provider.link) == old(ActiveGeneration(p.provider.link))
      ensures Files(Snap(), p.generation) == old(Files(Snap(), p.generation))
      ensures DirOf(p.binding).archive == old(DirOf(p.binding)).archive
      ensures done ==>
                DirOf(p.binding) == old(DirOf(p.binding)).(
                  pending := None,
                  settled := old(DirOf(p.binding)).settled[p.jti := Transaction(p, Committed)])
      ensures calm ==> done
    {
      Others(p);
      var io := PersistPhase(p, Committed);
      if !io.Done? { return false; }
      Others(p);
      io := Finalize(p, Committed);
      done := io.Done?;
    }

    method Abandon(p: Plan, phase: Phase, v: Verdicts, ghost base: BindingDir) returns (outcome: ApplyOutcome)
      requires Valid() && Behind(base, p, phase)
      requires base.pending.None? && p.target !in base.archive
      modifies this
      ensures Valid() && (outcome.Restored? || outcome.RecoveryRequired? || outcome.ApplyInterrupted?)
      ensures DirOf(p.binding).archive == base.archive
      ensures outcome.Restored? ==> RestoredTo(base, p)
      ensures outcome.RecoveryRequired? ==> DirOf(p.binding).pending.Some?
      ensures calm ==> if ComesBack(v) || !MayHaveActivated(phase) then outcome.Restored? else outcome.RecoveryRequired?
    {
      var io := RollBack(p, phase, v, base);
      if io.Crashed? { return ApplyInterrupted; }
      if io.Done? {
        io := Finalize(p, Phase.RolledBack);
        return if io.Done? then Restored else ApplyInterrupted;
      }
      Others(p);
      io := PersistPhase(p, RollbackFailed);
      outcome := if io.Done? then RecoveryRequired else ApplyInterrupted;
    }

    // -------------------------------------------------------------- recover

    /** Finishes what a stopped `Apply` or `Recover` left pending: forward exactly when
        receipts/<target> exists, otherwise back to exactly the earlier link. The refusals
        that would mean foreign interference never happen. */
    method Recover(b: Binding, proxyIntact: bool, v: Verdicts) returns (outcome: RecoverOutcome)
      requires Valid()
      modifies this
      ensures Valid() && DirOf(b).archive == old(DirOf(b)).archive
      ensures outcome == RecoverRefused(NothingPending) <==> old(DirOf(b)).pending.None?
      ensures outcome == RecoverRefused(ReceiptUnreadable) <==> BlockedByUnreadable(old(DirOf(b)))
      ensures outcome.RecoverRefused? ==>
                Snap() == old(Snap())
                && (outcome.reason.NothingPending? || outcome.reason.ReceiptUnreadable?
                    || outcome.reason.ProxyDrift?)
      ensures outcome.RolledForward? ==>
                var was := old(DirOf(b));
                var p := was.pending.value.plan;
                && p.target in was.archive
                && DirOf(b) == BindingDir(None, Some(was.archive[p.target]), was.archive,
                                          was.settled[p.jti := Transaction(p, Committed)])
                && ActiveGeneration(p.provider.link) == Some(p.generation)
      ensures outcome.RolledBack? ==>
                var was := old(DirOf(b));
                var p := was.pending.value.plan;
                && p.target !in was.archive
                && DirOf(b) == was.(pending := None,
                                    settled := was.settled[p.jti := Transaction(p, Phase.RolledBack)])
                && ActiveGeneration(p.provider.link) ==
                   (if was.current.Some? then Some(was.current.value.generation) else None)
                && p.generation !in generations
      ensures outcome == RecoverRefused(ProxyDrift) <==>
                && old(DirOf(b)).pending.Some? && !BlockedByUnreadable(old(DirOf(b)))
                && old(DirOf(b)).pending.value.plan.target in old(DirOf(b)).archive && !proxyIntact
      ensures calm && !outcome.RecoverRefused? ==>
                var Transaction(p, phase) := old(DirOf(b)).pending.value;
                if p.target in old(DirOf(b)).archive then outcome.RolledForward?
                else if ComesBack(v) || !MayHaveActivated(phase) then outcome.RolledBack?
                else outcome.RecoverInterrupted?
    {
      var dir := DirOf(b);
      if dir.pending.None? { return RecoverRefused(NothingPending); }
      var Transaction(p, phase) := dir.pending.value;
      DecisionPoint(log, b, proxyIntact);
      PendingStands(log, b);
      match Decide(dir, ActiveGeneration(p.provider.link), proxyIntact)
      case Refuse(reason) => outcome := RecoverRefused(reason);
      case Forward(receipt) => outcome := RollForward(p, receipt);
      case Back => outcome := RollBackPending(p, phase, v);
    }

    method RollForward(p: Plan, receipt: Receipt) returns (outcome: RecoverOutcome)
      requires Valid() && HasPending(Snap(), p.binding) && Pending(Snap(), p.binding).plan == p
      requires p.target in DirOf(p.binding).archive && DirOf(p.binding).archive[p.target] == receipt
      requires receipt.jti == p.jti && p.generation.link == p.provider.link
      modifies this
      ensures Valid() && (outcome.RolledForward? || outcome.RecoverInterrupted?)
      ensures DirOf(p.binding).archive == old(DirOf(p.binding)).archive
      ensures ActiveGeneration(p.provider.link) == old(ActiveGeneration(p.provider.link))
      ensures outcome.RolledForward? ==>
                DirOf(p.binding) == old(DirOf(p.binding)).(
                  pending := None, current := Some(receipt),
                  settled := old(DirOf(p.binding)).settled[p.jti := Transaction(p, Committed)])
      ensures calm ==> outcome.RolledForward?
    {
      Others(p);
      var io := PersistReceipt(p, receipt);
      if !io.Done? { return RecoverInterrupted; }
      var done := CloseCommitted(p);
      outcome := if done then RolledForward else RecoverInterrupted;
    }

    method RollBackPending(p: Plan, phase: Phase, v: Verdicts) returns (outcome: RecoverOutcome)
      requires Valid() && DirOf(p.binding).pending == Some(Transaction(p, phase))
      requires Undecided(Snap(), p.binding) && p.generation.link == p.provider.link
      modifies this
      ensures Valid() && (outcome.RolledBack? || outcome.RecoverInterrupted?)
      ensures DirOf(p.binding).archive == old(DirOf(p.binding)).archive
      ensures outcome.RolledBack? ==> RestoredTo(old(DirOf(p.binding)).(pending := None), p)
      ensures calm ==>
                if ComesBack(v) || !MayHaveActivated(phase) then outcome.RolledBack? else outcome.RecoverInterrupted?
    {
      ghost var base := DirOf(p.binding).(pending := None);
      var io := RollBack(p, phase, v, base);
      if !io.Done? { return RecoverInterrupted; }
      io := Finalize(p, Phase.RolledBack);
      outcome := if io.Done? then RecoverOutcome.RolledBack else RecoverInterrupted;
    }
  }

  /** The archive gained the receipt of this plan, or nothing. */
  ghost predicate ArchivesAtMost(was: BindingDir, now: BindingDir, p: Plan) {
    || now.archive == was.archive
    || exists verifiedAt :: now.archive == was.archive[p.target := ReceiptOf(p, verifiedAt)]
  }

  lemma NextIsCommitted(was: BindingDir, now: BindingDir, p: Plan)
    requires ArchivesAtMost(was, now, p) && p.target == Revision(was) + 1 && p.target !in was.archive
    ensures now.archive == was.archive || CommittedOneMore(was, now, p.provider, p.evidence)
  {
  }

  /** The archive gained the next revision, for the requested material. */
  predicate CommittedOneMore(was: BindingDir, now: BindingDir, provider: Provider, evidence: Evidence) {
    var next := Revision(was) + 1;
    && next !in was.archive && next in now.archive
    && now.archive == was.archive[next := now.archive[next]]
    && now.archive[next].provider == provider && now.archive[next].evidence == evidence
    && now.archive[next].revision == next
  }
}
