/** Control operations: what is signed, what the single journal slot holds, what a receipt
    means, and every atomic step by which any number of processes share one slot. */
module DispatchModel {
  import opened Prelude
  import Runs

  type Id = nat
  type Kid = nat
  type Pid = nat

  datatype Kind =
    | MigrateApply | KeysList | KeysValidate | KeysGenerateLocal | KeysRegisterExternal
    | TenantKeysGenerateLocal | TenantResourceApply | TenantResourceEnumerate | TenantResourceRevoke
    | RecoveryInvalidate | TenantDirectoryCreate | TenantDirectoryUpdate | TenantDirectoryDisable
    | TenantDirectoryReload | TenantDirectoryFinalize | TenantDirectoryDescribe

  /** What the current command asks for; `body` stands for the payload's fields. */
  datatype Input = Input(kind: Kind, body: nat, configRevision: nat)

  /** The canonical operation. It names the key that signs it. */
  datatype Operation = Operation(id: Id, kid: Kid, input: Input)

  /** An injective digest of the canonical bytes. */
  datatype RequestHash = Sha256(operation: Operation)

  /** A compact JWS. Signing the same payload twice may give other bytes. */
  datatype Jws = Jws(kid: Kid, payload: Operation, signature: nat)

  datatype Prepared = Prepared(operation: Operation, hash: RequestHash, jws: Jws)

  datatype JournalState = Dispatched | Accepted

  datatype Entry = Entry(id: Id, hash: RequestHash, kid: Kid, jws: Jws, state: JournalState)

  datatype ControlOutcome = Succeeded | Failed | InProgress

  datatype ResultData =
    | MigrationApplied | TenantKeyGenerated | TenantResourceApplied | TenantResourceEnumerated
    | TenantResourceRevoked | RecoveryInvalidation | TenantDirectoryMutation | TenantDirectoryDescription

  /** `sound` is the verdict of the shared protocol's own result validator. */
  datatype ControlResult = ControlResult(
    id: Id, hash: RequestHash, outcome: ControlOutcome, data: Option<ResultData>, sound: bool)

  datatype Receipt = Receipt(id: Id, accepted: bool, result: Option<ControlResult>, code: Option<string>)

  datatype Verdict = Rejected(code: string) | OutcomeUnknown | InProgressAccepted | Terminal(result: ControlResult)

  const OPERATION_ID_CONFLICT := "OPERATION_ID_CONFLICT"

  // ------------------------------------------------------------ identities

  function Sign(operation: Operation, signature: nat): Prepared {
    Prepared(operation, Sha256(operation), Jws(operation.kid, operation, signature))
  }

  function EntryOf(p: Prepared): Entry {
    Entry(p.operation.id, p.hash, p.operation.kid, p.jws, Dispatched)
  }

  predicate SameIdentity(e: Entry, f: Entry) {
    e.id == f.id && e.hash == f.hash && e.kid == f.kid && e.jws == f.jws
  }

  predicate Holds(slot: Option<Entry>, p: Prepared) {
    slot.Some? && SameIdentity(slot.value, EntryOf(p))
  }

  /** `prepare_entry_resume`: only the exact journaled content may be sent again, and it is
      sent with the journaled signature. */
  datatype Resumption = NotThisOperation | PayloadDiffers | Resumed(prepared: Prepared)

  function ResumeEntry(e: Entry, input: Input): Resumption {
    var operation := Operation(e.id, e.kid, input);
    if Sha256(operation) != e.hash then NotThisOperation
    else if e.jws.payload != operation then PayloadDiffers
    else Resumed(Prepared(operation, Sha256(operation), e.jws))
  }

  /** Only a tenant-resource apply carries a change set, and it always does. */
  predicate ChangeSetAllowed(kind: Kind, supplied: bool) {
    kind.TenantResourceApply? <==> supplied
  }

  // -------------------------------------------------------------- receipts

  predicate DataFits(kind: Kind, data: Option<ResultData>) {
    match kind
    case MigrateApply => data.None? || data.value.MigrationApplied?
    case KeysList | KeysValidate | KeysGenerateLocal | KeysRegisterExternal => data.None?
    case TenantKeysGenerateLocal => data == Some(TenantKeyGenerated)
    case TenantResourceApply => data == Some(TenantResourceApplied)
    case TenantResourceEnumerate => data == Some(TenantResourceEnumerated)
    case TenantResourceRevoke => data == Some(TenantResourceRevoked)
    case RecoveryInvalidate => data == Some(RecoveryInvalidation)
    case TenantDirectoryDescribe => data == Some(TenantDirectoryDescription)
    case _ => data == Some(TenantDirectoryMutation)
  }

  /** `validate_control_result_binding` */
  predicate Bound(p: Prepared, r: ControlResult) {
    && r.sound && r.id == p.operation.id && r.hash == p.hash
    && (r.outcome.Succeeded? ==> DataFits(p.operation.input.kind, r.data))
  }

  /** `classify_receipt`; None where it refuses to interpret the receipt. */
  function Classify(p: Prepared, receipt: Receipt): Option<Verdict> {
    if receipt.id != p.operation.id then None
    else if !receipt.accepted then
      if receipt.result.Some? || receipt.code.None? then None
      else Some(Rejected(receipt.code.value))
    else if receipt.result.None? || !Bound(p, receipt.result.value) then None
    else if receipt.result.value.outcome.InProgress? then Some(InProgressAccepted)
    else Some(Terminal(receipt.result.value))
  }

  /** Result present exactly when accepted and bound to the request; code present exactly
      when rejected. */
  predicate WellFormed(p: Prepared, receipt: Receipt) {
    && receipt.id == p.operation.id
    && (receipt.accepted <==> receipt.result.Some?)
    && (receipt.accepted <==> receipt.code.None?)
    && (receipt.accepted ==> Bound(p, receipt.result.value))
  }

  // ----------------------------------------------------- the journal's file

  /** What `mark_accepted_if_matches` leaves; None where it refuses. */
  function Marked(slot: Option<Entry>, expected: Entry): Option<Option<Entry>> {
    if slot.None? || !SameIdentity(slot.value, expected) then None
    else Some(Some(slot.value.(state := Accepted)))
  }

  /** What `clear_if_matches` leaves; None where it refuses. */
  function Cleared(slot: Option<Entry>, expected: Entry): Option<Option<Entry>> {
    if slot.None? || !SameIdentity(slot.value, expected) then None else Some(None)
  }

  /** What `record_dispatched` leaves; None where it refuses. */
  function Recorded(slot: Option<Entry>, entry: Entry): Option<Option<Entry>> {
    if !entry.state.Dispatched? then None
    else if slot.None? then Some(Some(entry))
    else if SameIdentity(slot.value, entry) && slot.value.state.Dispatched? then Some(slot)
    else None
  }

  // ----------------------------------------- what one settlement leaves behind

  /** The journal slot afterwards and the result made durable, if any. */
  datatype Effect = Effect(slot: Option<Entry>, persisted: Option<ControlResult>)

  function OrElse(changed: Option<Option<Entry>>, slot: Option<Entry>): Option<Entry> {
    if changed.Some? then changed.value else slot
  }

  /** `settle_journal` with no other process at work. */
  function SettleEffect(slot: Option<Entry>, p: Prepared, verdict: Verdict, persists: bool): Effect {
    match verdict
    case Rejected(code) =>
      Effect(if code == OPERATION_ID_CONFLICT then slot else OrElse(Cleared(slot, EntryOf(p)), slot), None)
    case OutcomeUnknown => Effect(slot, None)
    case InProgressAccepted => Effect(OrElse(Marked(slot, EntryOf(p)), slot), None)
    case Terminal(result) =>
      if !Bound(p, result) || Marked(slot, EntryOf(p)).None? then Effect(slot, None)
      else if !persists then Effect(Marked(slot, EntryOf(p)).value, None)
      else Effect(None, Some(result))
  }

  function DispatchEffect(slot: Option<Entry>, p: Prepared, receipt: Receipt, persists: bool): Effect {
    match Classify(p, receipt)
    case None => Effect(slot, None)
    case Some(verdict) => SettleEffect(slot, p, verdict, persists)
  }

  /** `complete_control_operation`, which settles by itself, in another order. */
  function ConformanceEffect(slot: Option<Entry>, p: Prepared, receipt: Receipt, persists: bool): Effect {
    if receipt.id != p.operation.id then Effect(slot, None)
    else if !receipt.accepted then
      Effect(if receipt.code == Some(OPERATION_ID_CONFLICT) then slot
             else OrElse(Cleared(slot, EntryOf(p)), slot), None)
    else match Marked(slot, EntryOf(p))
      case None => Effect(slot, None)
      case Some(marked) =>
        if receipt.result.None? || !Bound(p, receipt.result.value)
           || receipt.result.value.outcome.InProgress? || !persists
        then Effect(marked, None)
        else Effect(None, receipt.result)
  }

  // ----------------------------------------------------------------- steps

  /** How far one process is with its operation. */
  datatype Progress =
    | Observed(input: Input)
    | Signed(prepared: Prepared)
    | Ready(prepared: Prepared)
    | Waiting(prepared: Prepared)
    | Answered(prepared: Prepared, verdict: Verdict)
    | MarkedAccepted(prepared: Prepared, result: ControlResult)
    | ResultPersisted(prepared: Prepared, result: ControlResult)

  /** The slot, the active key, the id supply and the durable results, followed by what no
      file records: running processes, and the history of signatures, requests and slots. */
  datatype World = World(
    slot: Option<Entry>, activeKid: Kid, nextId: Id, results: set<ControlResult>,
    processes: map<Pid, Progress>, signed: map<Id, Prepared>, sent: set<Prepared>,
    journaled: set<Id>, rejected: set<Id>, cleared: set<Id>)

  datatype Step =
    | Observe(pid: Pid, input: Input)
    | SignFresh(pid: Pid, signature: nat)
    | Record(pid: Pid)
    | Resume(pid: Pid, input: Input)
    | Send(pid: Pid)
    | Answer(pid: Pid, verdict: Verdict)
    | MarkAccepted(pid: Pid)
    | PersistResult(pid: Pid)
    | Clear(pid: Pid)
    | Stop(pid: Pid)
    | Rotate(kid: Kid)

  predicate At(w: World, pid: Pid) { pid in w.processes }

  predicate MarkEnabled(w: World, progress: Progress) {
    && progress.Answered? && (progress.verdict.InProgressAccepted? || progress.verdict.Terminal?)
    && Holds(w.slot, progress.prepared)
  }

  /** The slot is cleared after a definitive refusal or a durable result, never otherwise. */
  predicate ClearEnabled(w: World, progress: Progress) {
    match progress
    case Answered(p, verdict) =>
      verdict.Rejected? && verdict.code != OPERATION_ID_CONFLICT && Holds(w.slot, p)
    case ResultPersisted(p, _) => Holds(w.slot, p)
    case _ => false
  }

  predicate VerdictBound(p: Prepared, verdict: Verdict) {
    verdict.Terminal? ==> Bound(p, verdict.result)
  }

  predicate Enabled(w: World, s: Step) {
    match s
    case Rotate(_) => true
    case Observe(pid, _) => !At(w, pid) && w.slot.None?
    case Resume(pid, input) => !At(w, pid) && w.slot.Some? && ResumeEntry(w.slot.value, input).Resumed?
    case _ =>
      At(w, s.pid) &&
      var progress := w.processes[s.pid];
      match s
      case SignFresh(_, _) => progress.Observed?
      case Record(_) => progress.Signed? && w.slot.None?
      case Send(_) => progress.Ready?
      case Answer(_, verdict) => progress.Waiting? && VerdictBound(progress.prepared, verdict)
      case MarkAccepted(_) => MarkEnabled(w, progress)
      case PersistResult(_) => progress.MarkedAccepted?
      case Clear(_) => ClearEnabled(w, progress)
      case _ => true
  }

  function Moved(w: World, pid: Pid, progress: Progress): World {
    w.(processes := w.processes[pid := progress])
  }

  function Gone(w: World, pid: Pid): World {
    w.(processes := w.processes - {pid})
  }

  function Emptied(w: World, pid: Pid, id: Id): World {
    Gone(w, pid).(slot := None, cleared := w.cleared + {id})
  }

  function Apply(w: World, s: Step): World {
    match s
    case Rotate(kid) => w.(activeKid := kid)
    case Observe(pid, input) => Moved(w, pid, Observed(input))
    case Resume(pid, input) =>
      if w.slot.None? then w else
      (match ResumeEntry(w.slot.value, input)
       case Resumed(p) => Moved(w, pid, Ready(p))
       case _ => w)
    case _ =>
      if !At(w, s.pid) then w else ApplyTo(w, s, w.processes[s.pid])
  }

  function ApplyTo(w: World, s: Step, progress: Progress): World
    requires !s.Rotate?
  {
    match s
    case SignFresh(pid, signature) =>
      if !progress.Observed? then w else
      var p := Sign(Operation(w.nextId, w.activeKid, progress.input), signature);
      Moved(w, pid, Signed(p)).(nextId := w.nextId + 1, signed := w.signed[w.nextId := p])
    case Record(pid) =>
      if !progress.Signed? then w else
      var p := progress.prepared;
      Moved(w, pid, Ready(p)).(slot := Some(EntryOf(p)), journaled := w.journaled + {p.operation.id})
    case Send(pid) =>
      if !progress.Ready? then w else
      Moved(w, pid, Waiting(progress.prepared)).(sent := w.sent + {progress.prepared})
    case Answer(pid, verdict) =>
      if !progress.Waiting? then w else Moved(w, pid, Answered(progress.prepared, verdict))
    case MarkAccepted(pid) =>
      if !MarkEnabled(w, progress) then w else
      (if progress.verdict.Terminal?
       then Moved(w, pid, MarkedAccepted(progress.prepared, progress.verdict.result))
       else Gone(w, pid)).(slot := Some(w.slot.value.(state := Accepted)))
    case PersistResult(pid) =>
      if !progress.MarkedAccepted? then w else
      Moved(w, pid, ResultPersisted(progress.prepared, progress.result))
        .(results := w.results + {progress.result})
    case Clear(pid) =>
      (match progress
       case Answered(p, _) =>
         Emptied(w, pid, p.operation.id).(rejected := w.rejected + {p.operation.id})
       case ResultPersisted(p, _) => Emptied(w, pid, p.operation.id)
       case _ => w)
    case Stop(pid) => Gone(w, pid)
    case _ => w
  }

  const FRESH := World(None, 0, 0, {}, map[], map[], {}, {}, {}, {})

  ghost const MACHINE: Runs.Machine<World, Step> := Runs.Machine(FRESH, Enabled, Apply)

  // ------------------------------------------------------------- invariant

  predicate Issued(w: World, p: Prepared) {
    p.operation.id in w.signed && w.signed[p.operation.id] == p
  }

  /** The operation is still in the slot, or its slot was cleared. */
  predicate Accounted(w: World, p: Prepared) {
    && Issued(w, p) && p.operation.id in w.journaled
    && (Holds(w.slot, p) <==> p.operation.id !in w.cleared)
  }

  predicate ProgressInv(w: World, progress: Progress) {
    match progress
    case Observed(_) => true
    case Signed(p) => Issued(w, p) && p.operation.id !in w.journaled
    case Ready(p) => Accounted(w, p)
    case Waiting(p) => Accounted(w, p)
    case Answered(p, verdict) => Accounted(w, p) && VerdictBound(p, verdict)
    case MarkedAccepted(p, result) => Accounted(w, p) && Bound(p, result)
    case ResultPersisted(p, result) => Accounted(w, p) && Bound(p, result) && result in w.results
  }

  /** The target refused the operation for good, or its result is durable. */
  ghost predicate OutcomeKept(w: World, id: Id) {
    id in w.signed &&
    (id in w.rejected || exists r :: r in w.results && r.id == id && r.hash == w.signed[id].hash && r.sound)
  }

  ghost predicate HistoryInv(w: World) {
    && (forall id :: id in w.signed ==>
          id < w.nextId && w.signed[id].operation.id == id
          && w.signed[id] == Sign(w.signed[id].operation, w.signed[id].jws.signature))
    && (forall id :: id in w.journaled ==> id in w.signed && Accounted(w, w.signed[id]))
    && (forall id :: id in w.cleared ==> id in w.journaled && OutcomeKept(w, id))
    && (forall p :: p in w.sent ==> Issued(w, p) && p.operation.id in w.journaled)
  }

  ghost predicate Inv(w: World) {
    && HistoryInv(w)
    && (w.slot.Some? ==>
          && w.slot.value.id in w.journaled
          && Holds(w.slot, w.signed[w.slot.value.id]))
    && (forall pid :: pid in w.processes ==> ProgressInv(w, w.processes[pid]))
    && OneSigner(w)
  }

  /** No two processes are about to journal the same fresh id. */
  ghost predicate OneSigner(w: World) {
    forall p, q :: p in w.processes && q in w.processes && p != q ==>
      !(w.processes[p].Signed? && w.processes[q].Signed?
        && w.processes[p].prepared.operation.id == w.processes[q].prepared.operation.id)
  }

  lemma QuietKeeps(w: World, s: Step)
    requires Inv(w) && Enabled(w, s) && (s.Observe? || s.Resume? || s.Rotate? || s.Stop?)
    ensures Inv(Apply(w, s))
  {
  }

  lemma ExchangeKeeps(w: World, s: Step)
    requires Inv(w) && Enabled(w, s) && (s.Send? || s.Answer?)
    ensures Inv(Apply(w, s))
  {
  }

  lemma SignFreshKeeps(w: World, s: Step)
    requires Inv(w) && Enabled(w, s) && s.SignFresh?
    ensures Inv(Apply(w, s))
  {
  }

  lemma RecordKeeps(w: World, s: Step)
    requires Inv(w) && Enabled(w, s) && s.Record?
    ensures Inv(Apply(w, s))
  {
  }

  lemma MarkKeeps(w: World, s: Step)
    requires Inv(w) && Enabled(w, s) && s.MarkAccepted?
    ensures Inv(Apply(w, s))
  {
  }

  lemma PersistKeeps(w: World, s: Step)
    requires Inv(w) && Enabled(w, s) && s.PersistResult?
    ensures Inv(Apply(w, s))
  {
  }

  lemma ClearKeeps(w: World, s: Step)
    requires Inv(w) && Enabled(w, s) && s.Clear?
    ensures Inv(Apply(w, s))
  {
  }

  lemma StepKeepsInv(w: World, s: Step)
    requires Inv(w) && Enabled(w, s)
    ensures Inv(Apply(w, s))
  {
    match s
    case SignFresh(_, _) => SignFreshKeeps(w, s);
    case Record(_) => RecordKeeps(w, s);
    case MarkAccepted(_) => MarkKeeps(w, s);
    case PersistResult(_) => PersistKeeps(w, s);
    case Clear(_) => ClearKeeps(w, s);
    case Send(_) => ExchangeKeeps(w, s);
    case Answer(_, _) => ExchangeKeeps(w, s);
    case _ => QuietKeeps(w, s);
  }

  lemma {:induction false} RunKeepsInv(log: seq<Step>)
    requires Runs.IsRun(MACHINE, log)
    ensures Inv(Runs.After(MACHINE, log))
  {
    forall w, s | Inv(w) && Enabled(w, s) ensures Inv(Apply(w, s)) {
      StepKeepsInv(w, s);
    }
    Runs.Inductive(MACHINE, Inv, log);
  }
}
