/** Durable state of the TLS certificate transactions, and every durable write
    that may change it, one step a write. */
module TlsModel {
  import opened Prelude
  import Runs

  type Digest = nat
  type Link = string

  const TTL: int := 15 * 60
  const MAX_REVISION: nat := 0xFFFF_FFFF_FFFF_FFFF
  // A generation name keeps the first 8 of a transaction id's 32 hex digits.
  const STAMP_UNIT: nat := 0x1_0000_0000_0000_0000_0000_0000

  datatype Binding = Binding(deployment: string, tenant: string, hostname: string)

  datatype Generation = Generation(link: Link, revision: nat, material: Digest, stamp: nat)

  datatype GenerationFile = FullChain | PrivateKey | Manifest | ProxyTemplate | ProxyConf

  datatype Source =
    | ExternalFiles(certificate: Digest, privateKey: Digest)
    | AcmeReceipt(receipt: Digest, issuance: nat, certificate: Digest, privateKey: Digest)

  /** The digests and facts a transaction and its receipt must agree on. */
  datatype Evidence = Evidence(
    source: Source, proxy: Option<Digest>, material: Digest, leaf: Digest, notAfter: int,
    providerConfig: Digest, trustAnchors: Digest)

  /** The material root is the parent of the activation link, so the link names both. */
  datatype Provider = Provider(link: Link, publicUrl: string)

  datatype Phase =
    | Prepared | Staged | Activating | Activated | Reloaded | Verified
    | RollbackFailed | RolledBack | Committed

  datatype Receipt = Receipt(
    jti: nat, binding: Binding, revision: nat, evidence: Evidence, generation: Generation,
    provider: Provider, createdAt: int, expiresAt: int, verifiedAt: int)

  /** An injective digest of one receipt. */
  datatype ReceiptDigest = Sha256(receipt: Receipt)

  /** What a transaction fixes before its first write. */
  datatype Plan = Plan(
    jti: nat, binding: Binding, expected: nat, target: nat, evidence: Evidence,
    provider: Provider, generation: Generation,
    previousGeneration: Option<Generation>, previousLeaf: Option<Digest>,
    previousReceipt: Option<ReceiptDigest>,
    createdAt: int, expiresAt: int)

  datatype Transaction = Transaction(plan: Plan, phase: Phase)

  /** The files of one binding: pending.json, receipt.json, receipts/, transactions/. */
  datatype BindingDir = BindingDir(
    pending: Option<Transaction>, current: Option<Receipt>,
    archive: map<nat, Receipt>, settled: map<nat, Transaction>)

  datatype Disk = Disk(
    dirs: map<Binding, BindingDir>,
    links: map<Link, Generation>,
    generations: map<Generation, set<GenerationFile>>,
    nextJti: nat)

  const EMPTY_DIR := BindingDir(None, None, map[], map[])

  function Dir(d: Disk, b: Binding): BindingDir {
    if b in d.dirs then d.dirs[b] else EMPTY_DIR
  }

  function Active(d: Disk, link: Link): Option<Generation> {
    if link in d.links then Some(d.links[link]) else None
  }

  predicate MayHaveActivated(p: Phase) {
    p.Activating? || p.Activated? || p.Reloaded? || p.Verified? || p.RollbackFailed?
  }

  function Stamp(jti: nat): nat { jti / STAMP_UNIT }

  function GenerationName(provider: Provider, target: nat, evidence: Evidence, jti: nat): Generation {
    Generation(provider.link, target, evidence.material, Stamp(jti))
  }

  function RequiredFiles(evidence: Evidence): set<GenerationFile> {
    {FullChain, PrivateKey, Manifest}
    + (if evidence.proxy.Some? then {ProxyTemplate, ProxyConf} else {})
  }

  predicate Complete(d: Disk, g: Generation, evidence: Evidence) {
    g in d.generations && RequiredFiles(evidence) <= d.generations[g]
  }

  /** What `load_receipt_at` demands of the times in a receipt. */
  predicate Readable(r: Receipt) {
    && r.revision > 0
    && r.expiresAt == r.createdAt + TTL
    && r.createdAt < r.evidence.notAfter
    && r.createdAt <= r.verifiedAt <= r.expiresAt
    && r.verifiedAt < r.evidence.notAfter
  }

  /** `ensure_source_not_current`: nothing an apply may renew differs. */
  predicate SameSource(current: Receipt, evidence: Evidence) {
    && current.evidence.source == evidence.source && current.evidence.proxy == evidence.proxy
    && current.evidence.providerConfig == evidence.providerConfig
    && current.evidence.trustAnchors == evidence.trustAnchors
  }

  function ReceiptOf(p: Plan, verifiedAt: int): Receipt {
    Receipt(p.jti, p.binding, p.target, p.evidence, p.generation, p.provider,
            p.createdAt, p.expiresAt, verifiedAt)
  }

  predicate MatchesCommitted(p: Plan, r: Receipt) {
    && r.jti == p.jti && r.binding == p.binding && r.revision == p.target
    && r.evidence == p.evidence && r.generation == p.generation && r.provider == p.provider
    && r.createdAt == p.createdAt && r.expiresAt == p.expiresAt
  }

  predicate MatchesPrevious(p: Plan, current: Option<Receipt>) {
    match current
    case None =>
      p.expected == 0 && p.previousGeneration.None? && p.previousLeaf.None? && p.previousReceipt.None?
    case Some(r) =>
      && p.expected > 0 && r.revision == p.expected
      && p.previousGeneration == Some(r.generation)
      && p.previousLeaf == Some(r.evidence.leaf)
      && p.previousReceipt == Some(Sha256(r))
  }

  /** The activation link and the current receipt say the same thing. */
  predicate ActiveAgrees(d: Disk, link: Link, current: Option<Receipt>) {
    match current
    case None => Active(d, link).None?
    case Some(r) => Active(d, link) == Some(r.generation) && r.provider.link == link
  }

  /** The transaction archive proves how the receipt was committed. */
  predicate CommittedOnDisk(dir: BindingDir, r: Receipt) {
    && r.jti in dir.settled
    && dir.settled[r.jti].phase.Committed?
    && MatchesCommitted(dir.settled[r.jti].plan, r)
  }

  function Revision(dir: BindingDir): nat {
    if dir.current.Some? then dir.current.value.revision else 0
  }

  /** The activation link this binding owns, if any. */
  function Claim(dir: BindingDir): Option<Link> {
    if dir.pending.Some? then Some(dir.pending.value.plan.provider.link)
    else if dir.current.Some? then Some(dir.current.value.provider.link)
    else None
  }

  /** What `recover` does with a binding directory and the link it observes. */
  datatype Decision =
    | Refuse(reason: RecoverRefusal)
    | Forward(receipt: Receipt)
    | Back

  datatype RecoverRefusal =
    | NothingPending | ReceiptUnreadable | PreviousChanged | CommittedMismatch
    | ProxyDrift | ActiveDiffers | PointerChanged

  function Decide(dir: BindingDir, active: Option<Generation>, proxyIntact: bool): Decision {
    if dir.pending.None? then Refuse(NothingPending) else
    var tx := dir.pending.value;
    if dir.current.Some? && !Readable(dir.current.value) then Refuse(ReceiptUnreadable)
    else if Promoted(dir, tx.plan) then
      DecideForward(tx.plan, dir.current.value, active, proxyIntact)
    else if !MatchesPrevious(tx.plan, dir.current) then Refuse(PreviousChanged)
    else if tx.plan.target in dir.archive then
      if !Readable(dir.archive[tx.plan.target]) then Refuse(ReceiptUnreadable)
      else DecideForward(tx.plan, dir.archive[tx.plan.target], active, proxyIntact)
    else if !RecoveryActivationValid(tx, active) then Refuse(PointerChanged)
    else Back
  }

  function DecideForward(p: Plan, receipt: Receipt, active: Option<Generation>, proxyIntact: bool): Decision {
    if !MatchesCommitted(p, receipt) then Refuse(CommittedMismatch)
    else if !proxyIntact then Refuse(ProxyDrift)
    else if active != Some(p.generation) then Refuse(ActiveDiffers)
    else Forward(receipt)
  }

  /** Some receipt that recovery must load was verified outside its transaction's lifetime. */
  predicate BlockedByUnreadable(dir: BindingDir) {
    dir.pending.Some? &&
    var p := dir.pending.value.plan;
    || (dir.current.Some? && !Readable(dir.current.value))
    || (!Promoted(dir, p) && p.target in dir.archive && !Readable(dir.archive[p.target]))
  }

  predicate Fences(d: Disk, other: Binding, link: Link, b: Binding) {
    && other != b && Dir(d, other).pending.Some?
    && Dir(d, other).pending.value.plan.provider.link == link
  }

  predicate FencedByOther(d: Disk, link: Link, b: Binding) {
    exists other :: other in d.dirs && Fences(d, other, link, b)
  }

  // ---------------------------------------------------------------- steps

  datatype Step =
    | Prepare(plan: Plan)
    | Stage(binding: Binding, file: Option<GenerationFile>)
    | Advance(binding: Binding, phase: Phase)
    | Activate(binding: Binding)
    | Restore(binding: Binding)
    | Discard(binding: Binding, file: Option<GenerationFile>)
    | Archive(binding: Binding, verifiedAt: int)
    | Promote(binding: Binding)
    | Settle(binding: Binding, phase: Phase)
    | Retire(binding: Binding)

  function StepBinding(s: Step): Binding {
    if s.Prepare? then s.plan.binding else s.binding
  }

  predicate PrepareEnabled(d: Disk, p: Plan) {
    var dir := Dir(d, p.binding);
    && dir.pending.None?
    && !FencedByOther(d, p.provider.link, p.binding)
    && ActiveAgrees(d, p.provider.link, dir.current)
    && (dir.current.Some? ==>
          && CommittedOnDisk(dir, dir.current.value) && Readable(dir.current.value)
          && !SameSource(dir.current.value, p.evidence))
    && MatchesPrevious(p, dir.current)
    && p.target == p.expected + 1 && p.target !in dir.archive
    && p.jti == d.nextJti
    && p.generation == GenerationName(p.provider, p.target, p.evidence, p.jti)
    && p.expiresAt == p.createdAt + TTL
  }

  predicate AdvanceEnabled(d: Disk, dir: BindingDir, tx: Transaction, phase: Phase) {
    var p := tx.plan;
    var live := Active(d, p.provider.link) == Some(p.generation);
    match phase
    case Staged => tx.phase.Prepared? && Complete(d, p.generation, p.evidence)
    case Activating => tx.phase.Staged?
    case Activated => tx.phase.Activating? && live
    case Reloaded => tx.phase.Activated? && live
    case Verified => tx.phase.Reloaded? && live
    case RollbackFailed => p.target !in dir.archive
    case Committed => Promoted(dir, p)
    case _ => false
  }

  /** The current receipt is the one this transaction produced. */
  predicate Promoted(dir: BindingDir, p: Plan) {
    dir.current.Some? && dir.current.value.jti == p.jti
  }

  /** What holds of a transaction whose outcome is final. */
  predicate Final(d: Disk, dir: BindingDir, tx: Transaction, phase: Phase) {
    var p := tx.plan;
    match phase
    case Committed => tx.phase.Committed? && Promoted(dir, p)
    case RolledBack =>
      && p.target !in dir.archive
      && Active(d, p.provider.link) == p.previousGeneration
      && p.generation !in d.generations
    case _ => false
  }

  predicate HasPending(d: Disk, b: Binding) { Dir(d, b).pending.Some? }

  function Pending(d: Disk, b: Binding): Transaction
    requires HasPending(d, b)
  {
    Dir(d, b).pending.value
  }

  predicate Undecided(d: Disk, b: Binding)
    requires HasPending(d, b)
  {
    Pending(d, b).plan.target !in Dir(d, b).archive
  }

  predicate StageEnabled(d: Disk, b: Binding, file: Option<GenerationFile>)
    requires HasPending(d, b)
  {
    var Transaction(p, phase) := Pending(d, b);
    phase.Prepared? && (file.Some? <==> p.generation in d.generations)
  }

  predicate ActivateEnabled(d: Disk, b: Binding)
    requires HasPending(d, b)
  {
    var Transaction(p, phase) := Pending(d, b);
    && phase.Activating? && Active(d, p.provider.link) == p.previousGeneration
    && Complete(d, p.generation, p.evidence)
  }

  predicate DiscardEnabled(d: Disk, b: Binding, file: Option<GenerationFile>)
    requires HasPending(d, b)
  {
    var p := Pending(d, b).plan;
    && Undecided(d, b) && Active(d, p.provider.link) != Some(p.generation)
    && p.generation in d.generations
    && (file.None? ==> d.generations[p.generation] == {})
  }

  predicate ArchiveEnabled(d: Disk, b: Binding)
    requires HasPending(d, b)
  {
    var Transaction(p, phase) := Pending(d, b);
    && phase.Verified? && Undecided(d, b)
    && Active(d, p.provider.link) == Some(p.generation)
    && Complete(d, p.generation, p.evidence)
  }

  predicate RetireEnabled(d: Disk, b: Binding)
    requires HasPending(d, b)
  {
    var dir, tx := Dir(d, b), Pending(d, b);
    tx.plan.jti in dir.settled &&
    var Transaction(p, phase) := dir.settled[tx.plan.jti];
    && (phase.Committed? || phase.RolledBack?) && Final(d, dir, tx, phase)
    && p == tx.plan
  }

  predicate Enabled(d: Disk, s: Step) {
    if s.Prepare? then PrepareEnabled(d, s.plan)
    else
      HasPending(d, s.binding) &&
      match s
      case Stage(b, file) => StageEnabled(d, b, file)
      case Advance(b, phase) => AdvanceEnabled(d, Dir(d, b), Pending(d, b), phase)
      case Activate(b) => ActivateEnabled(d, b)
      case Restore(b) => Undecided(d, b)
      case Discard(b, file) => DiscardEnabled(d, b, file)
      case Archive(b, _) => ArchiveEnabled(d, b)
      case Promote(b) => !Undecided(d, b)
      case Settle(b, phase) => Final(d, Dir(d, b), Pending(d, b), phase)
      case Retire(b) => RetireEnabled(d, b)
  }

  function SetDir(d: Disk, b: Binding, dir: BindingDir): Disk {
    d.(dirs := d.dirs[b := dir])
  }

  function Apply(d: Disk, s: Step): Disk {
    if s.Prepare? then
      SetDir(d, s.plan.binding, Dir(d, s.plan.binding).(pending := Some(Transaction(s.plan, Prepared))))
        .(nextJti := s.plan.jti + 1)
    else
      var dir := Dir(d, s.binding);
      if dir.pending.None? then d else
      var p := dir.pending.value.plan;
      var g := p.generation;
      var link := p.provider.link;
      match s
      case Stage(_, None) => d.(generations := d.generations[g := {}])
      case Stage(_, Some(file)) =>
        if g in d.generations then d.(generations := d.generations[g := d.generations[g] + {file}]) else d
      case Advance(_, phase) => SetDir(d, s.binding, dir.(pending := Some(Transaction(p, phase))))
      case Activate(_) => d.(links := d.links[link := g])
      case Restore(_) =>
        if p.previousGeneration.Some?
        then d.(links := d.links[link := p.previousGeneration.value])
        else d.(links := d.links - {link})
      case Discard(_, Some(file)) =>
        if g in d.generations then d.(generations := d.generations[g := d.generations[g] - {file}]) else d
      case Discard(_, None) => d.(generations := d.generations - {g})
      case Archive(_, verifiedAt) =>
        SetDir(d, s.binding, dir.(archive := dir.archive[p.target := ReceiptOf(p, verifiedAt)]))
      case Promote(_) =>
        if p.target in dir.archive
        then SetDir(d, s.binding, dir.(current := Some(dir.archive[p.target]))) else d
      case Settle(_, phase) =>
        SetDir(d, s.binding, dir.(settled := dir.settled[p.jti := Transaction(p, phase)]))
      case Retire(_) => SetDir(d, s.binding, dir.(pending := None))
  }

  const FRESH := Disk(map[], map[], map[], 0)

  ghost const MACHINE: Runs.Machine<Disk, Step> := Runs.Machine(FRESH, Enabled, Apply)

  // ------------------------------------------------------------ invariant

  /** The archive holds exactly revisions 1..n, each with its whole generation on disk. */
  ghost predicate ArchiveUpTo(d: Disk, b: Binding, dir: BindingDir, n: nat) {
    && (forall k :: k in dir.archive <==> 1 <= k <= n)
    && (forall k :: k in dir.archive ==> ArchivedReceipt(d, b, dir, k))
  }

  ghost predicate ArchivedReceipt(d: Disk, b: Binding, dir: BindingDir, k: nat)
    requires k in dir.archive
  {
    var r := dir.archive[k];
    && r.binding == b && r.revision == k && r.jti < d.nextJti
    && r.expiresAt == r.createdAt + TTL
    && r.generation.revision == k && r.generation.link == r.provider.link
    && Claim(dir) == Some(r.provider.link)
    && Complete(d, r.generation, r.evidence)
  }

  ghost predicate CurrentInv(dir: BindingDir) {
    dir.current.Some? ==>
      var r := dir.current.value;
      r.revision in dir.archive && dir.archive[r.revision] == r
  }

  ghost predicate IdleInv(d: Disk, b: Binding, dir: BindingDir) {
    && ArchiveUpTo(d, b, dir, Revision(dir))
    && (dir.current.Some? ==>
          && CommittedOnDisk(dir, dir.current.value)
          && Active(d, dir.current.value.provider.link) == Some(dir.current.value.generation))
  }

  ghost predicate PendingInv(d: Disk, b: Binding, dir: BindingDir, tx: Transaction) {
    var Transaction(p, phase) := tx;
    var active := Active(d, p.provider.link);
    && p.binding == b && p.target == p.expected + 1 && p.jti < d.nextJti
    && p.expiresAt == p.createdAt + TTL
    && p.generation == GenerationName(p.provider, p.target, p.evidence, p.jti)
    && !phase.RolledBack?
    && (dir.current.Some? ==> dir.current.value.provider.link == p.provider.link)
    && (active == Some(p.generation) ==> Complete(d, p.generation, p.evidence))
    && ArchiveUpTo(d, b, dir, if p.target in dir.archive then p.target else p.expected)
    && (p.target in dir.archive ==>
          MatchesCommitted(p, dir.archive[p.target]) && active == Some(p.generation))
    && (if Promoted(dir, p) then
          dir.current.value.revision == p.target && (phase.Verified? || phase.Committed?)
        else
          && MatchesPrevious(p, dir.current) && !phase.Committed?
          && (dir.current.Some? ==> CommittedOnDisk(dir, dir.current.value))
          && (p.target in dir.archive ==> phase.Verified?)
          && (p.target !in dir.archive ==> RecoveryActivationValid(tx, active)))
  }

  /** What `validate_recovery_activation_state` demands of the link. */
  predicate RecoveryActivationValid(tx: Transaction, active: Option<Generation>) {
    || active == tx.plan.previousGeneration
    || (MayHaveActivated(tx.phase) && active == Some(tx.plan.generation))
  }

  ghost predicate DirInv(d: Disk, b: Binding) {
    var dir := Dir(d, b);
    && CurrentInv(dir)
    && (if dir.pending.Some? then PendingInv(d, b, dir, dir.pending.value) else IdleInv(d, b, dir))
  }

  ghost predicate OneOwner(d: Disk) {
    forall b, c :: b != c && Claim(Dir(d, b)).Some? ==> Claim(Dir(d, b)) != Claim(Dir(d, c))
  }

  ghost predicate Inv(d: Disk) {
    (forall b :: DirInv(d, b)) && OneOwner(d)
  }
}
