/** Off-host backup copy: the controller's durable record, the source's answers, the files
    the destination has so far, and every durable change to them. */
module TransferModel {
  import opened Prelude
  import Runs

  type Id = nat
  type Host = nat
  type Byte = bv8

  const U64_MAX: nat := 0xFFFF_FFFF_FFFF_FFFF

  /** An injective digest of a file's bytes. */
  datatype Digest = Sha256(bytes: seq<Byte>)

  datatype File = File(path: string, size: nat, sha: Digest)

  datatype Plan = Plan(operationId: Id, deployment: string, manifest: string, files: seq<File>)

  datatype Chunk = Chunk(operationId: Id, path: string, offset: nat, total: nat, sha: Digest, bytes: seq<Byte>)

  datatype Receipt = Receipt(deployment: string, source: Host, destination: Host, manifest: string)

  datatype Phase =
    | SourcePrepare | DestinationPrepare | Copying | Finalize
    | RecordSourceReceipt | CleanupSource | CleanupDestination

  datatype Cursor = Cursor(fileIndex: nat, offset: nat, readId: Id, writeId: Id)

  datatype Record = Record(
    deployment: string, source: Host, destination: Host, transferId: Id, phase: Phase,
    plan: Option<Plan>, cursor: Option<Cursor>,
    finalizeId: Id, receiptId: Id, sourceCleanupId: Id, destinationCleanupId: Id,
    receipt: Option<Receipt>)

  /** What the destination published for one transfer, with the plan it was copied by. */
  datatype Snapshot = Snapshot(plan: Plan, files: map<string, seq<Byte>>)

  datatype Side = AtSource | AtDestination

  /** An operation as one target's journal knows it. */
  datatype TargetOp = TargetOp(side: Side, id: Id)

  /** The controller's record; what the source answered to exports and reads; the destination's
      partial tree, published snapshots and receipts; the operations that the targets have
      journaled as completed; and those journaled as failed, whose answer is repeated. */
  datatype Disk = Disk(
    record: Option<Record>, nextId: Id,
    exported: map<Id, Plan>, answers: map<Id, seq<Byte>>,
    partial: map<string, seq<Byte>>,
    published: map<Id, Snapshot>, receipts: map<Id, Receipt>,
    done: set<TargetOp>, failed: set<TargetOp>)

  // ------------------------------------------------------------- validation

  predicate ValidSha256(value: string) {
    |value| == 64 && forall i :: 0 <= i < 64 ==> '0' <= value[i] <= '9' || 'a' <= value[i] <= 'f'
  }

  /** `validate` of transfer_journal.rs, without its string formats. */
  predicate ValidRecord(r: Record) {
    && r.source != r.destination
    && (r.plan.Some? ==> ValidPlan(r, r.plan.value))
    && (r.cursor.Some? ==> r.plan.Some? && InRange(r.plan.value, r.cursor.value))
    && match r.phase
       case SourcePrepare => r.plan.None? && r.cursor.None? && r.receipt.None?
       case DestinationPrepare => r.plan.Some? && r.cursor.None? && r.receipt.None?
       case Copying => r.plan.Some? && r.cursor.Some? && r.receipt.None?
       case Finalize => r.plan.Some? && r.cursor.None? && r.receipt.None?
       case _ => r.plan.Some? && r.cursor.None? && r.receipt.Some?
  }

  predicate ValidPlan(r: Record, plan: Plan) {
    && plan.operationId == r.transferId && plan.deployment == r.deployment
    && ValidSha256(plan.manifest) && plan.files != []
  }

  predicate InRange(plan: Plan, cursor: Cursor) {
    cursor.fileIndex < |plan.files| && cursor.offset < plan.files[cursor.fileIndex].size
  }

  predicate ReceiptBound(r: Record, receipt: Receipt) {
    && r.plan.Some? && receipt.deployment == r.deployment
    && receipt.source == r.source && receipt.destination == r.destination
    && receipt.manifest == r.plan.value.manifest
  }

  /** The receipt a destination makes from the bindings it is asked to finalize. */
  function BoundReceipt(r: Record): Receipt {
    Receipt(r.deployment, r.source, r.destination, if r.plan.Some? then r.plan.value.manifest else "")
  }

  // ---------------------------------------------------------------- targets

  /** The source describes the files it exports. */
  ghost predicate Honest(files: seq<File>) {
    && (forall i :: 0 <= i < |files| ==> files[i].size == |files[i].sha.bytes| <= U64_MAX)
    && (forall i, j :: 0 <= i < j < |files| ==> files[i].path != files[j].path)
  }

  /** A chunk the source may answer at this place: not empty, and inside the file. */
  predicate Slice(file: File, offset: nat, bytes: seq<Byte>) {
    && bytes != [] && offset + |bytes| <= |file.sha.bytes|
    && bytes == file.sha.bytes[offset..offset + |bytes|]
  }

  /** `write_transfer_chunk`: appends what is missing of a chunk whose beginning may have
      been written before; None where it refuses. */
  function WriteChunk(existing: Option<seq<Byte>>, offset: nat, bytes: seq<Byte>): Option<seq<Byte>> {
    match existing
    case None => if offset == 0 then Some(bytes) else None
    case Some(present) =>
      if |present| < offset || |present| > offset + |bytes| then None
      else if present[offset..] != bytes[..|present| - offset] then None
      else Some(present + bytes[|present| - offset..])
  }

  /** The copy of one chunk: the file and cursor, the source's answer, what the
      destination has of the file, and whether its journal has the write. */
  datatype Copy = Copy(file: File, cursor: Cursor, answer: Option<seq<Byte>>, here: Option<seq<Byte>>, acked: bool)

  /** The chunk being copied while the record is at `Copying`. */
  function CopyOf(d: Disk): Option<Copy> {
    if d.record.None? || d.record.value.cursor.None? || d.record.value.plan.None? then None else
    var cursor, files := d.record.value.cursor.value, d.record.value.plan.value.files;
    if cursor.fileIndex >= |files| then None else
    var file := files[cursor.fileIndex];
    Some(Copy(file, cursor,
              if cursor.readId in d.answers then Some(d.answers[cursor.readId]) else None,
              if file.path in d.partial then Some(d.partial[file.path]) else None,
              WriteOp(cursor) in d.done))
  }

  function Target(c: Copy): Option<seq<Byte>> {
    if c.answer.None? then None else WriteChunk(c.here, c.cursor.offset, c.answer.value)
  }

  function Length(here: Option<seq<Byte>>): nat { if here.Some? then |here.value| else 0 }

  datatype ChunkOp = Read(bytes: seq<Byte>) | WritePart(length: nat) | Write

  predicate OpEnabled(c: Copy, op: ChunkOp) {
    match op
    case Read(bytes) => c.answer.None? && Slice(c.file, c.cursor.offset, bytes)
    case WritePart(length) => !c.acked && Target(c).Some? && Length(c.here) <= length <= |Target(c).value|
    case Write => !c.acked && Target(c).Some?
  }

  function ApplyOp(c: Copy, op: ChunkOp): Copy {
    match op
    case Read(bytes) => c.(answer := Some(bytes))
    case WritePart(length) =>
      if Target(c).Some? && length <= |Target(c).value| then c.(here := Some(Target(c).value[..length])) else c
    case Write => c.(here := Target(c), acked := true)
  }

  /** The disk with the chunk's facts replaced. */
  function PutCopy(d: Disk, c: Copy): Disk {
    d.(answers := if c.answer.Some? then d.answers[c.cursor.readId := c.answer.value] else d.answers,
       partial := if c.here.Some? then d.partial[c.file.path := c.here.value] else d.partial,
       done := d.done + (if c.answer.Some? then {ReadOp(c.cursor)} else {})
                      + (if c.acked then {WriteOp(c.cursor)} else {}))
  }

  // ------------------------------------------------------------ controller

  function NewRecord(deployment: string, source: Host, destination: Host, id: Id): Record {
    Record(deployment, source, destination, id, SourcePrepare, None, None,
           id + 1, id + 2, id + 3, id + 4, None)
  }

  function WithCursor(r: Record, fileIndex: nat, offset: nat, id: Id): Record {
    r.(phase := Copying, cursor := Some(Cursor(fileIndex, offset, id, id + 1)))
  }

  /** Where the cursor goes after a chunk of `consumed` bytes. */
  function Advanced(r: Record, consumed: nat, id: Id): Record {
    if r.cursor.None? || r.plan.None? || r.cursor.value.fileIndex >= |r.plan.value.files| then r else
    var cursor, files := r.cursor.value, r.plan.value.files;
    if cursor.offset + consumed < files[cursor.fileIndex].size then
      WithCursor(r, cursor.fileIndex, cursor.offset + consumed, id)
    else if cursor.fileIndex + 1 < |files| then WithCursor(r, cursor.fileIndex + 1, 0, id)
    else r.(phase := Finalize, cursor := None)
  }

  /** The record that follows once the target operation of a phase without chunks is done. */
  function AfterPhase(r: Record, id: Id, receipt: Receipt): Record {
    match r.phase
    case DestinationPrepare => WithCursor(r, 0, 0, id)
    case Finalize => r.(receipt := Some(receipt), phase := RecordSourceReceipt)
    case RecordSourceReceipt => r.(phase := CleanupSource)
    case CleanupSource => r.(phase := CleanupDestination)
    case _ => r
  }

  // ------------------------------------------------------------------ steps

  datatype Step =
    | Create(deployment: string, source: Host, destination: Host)
    | Export(plan: Plan)
    | StorePlan(plan: Plan)
    | StorePhase
    | Exchange(chunk: ChunkOp)
    | StoreCursor
    | Publish
    | Perform
    | Forget
    | Fail(op: TargetOp)
    | Compact(op: TargetOp)

  /** The operation of a phase that has but one. */
  function PhaseOp(r: Record): TargetOp {
    match r.phase
    case SourcePrepare => TargetOp(AtSource, r.transferId)
    case Finalize => TargetOp(AtDestination, r.finalizeId)
    case RecordSourceReceipt => TargetOp(AtSource, r.receiptId)
    case CleanupSource => TargetOp(AtSource, r.sourceCleanupId)
    case CleanupDestination => TargetOp(AtDestination, r.destinationCleanupId)
    case _ => TargetOp(AtDestination, r.transferId)
  }

  function ReadOp(c: Cursor): TargetOp { TargetOp(AtSource, c.readId) }
  function WriteOp(c: Cursor): TargetOp { TargetOp(AtDestination, c.writeId) }

  /** The journaled operation without which the record cannot leave its place. A read is not
      journaled: each is carried out anew, from files that do not change. */
  predicate Needs(r: Record, t: TargetOp) {
    if r.phase.Copying? then r.cursor.Some? && t == WriteOp(r.cursor.value)
    else t == PhaseOp(r)
  }

  /** The operations the record names for later phases. */
  predicate NeedsLater(r: Record, t: TargetOp) {
    || (r.phase.SourcePrepare? && t == TargetOp(AtDestination, r.transferId))
    || (!r.phase.Finalize? && Early(r.phase) && t == TargetOp(AtDestination, r.finalizeId))
    || ((Early(r.phase) || r.phase.Finalize?) && t == TargetOp(AtSource, r.receiptId))
    || (!r.phase.CleanupSource? && !r.phase.CleanupDestination? && t == TargetOp(AtSource, r.sourceCleanupId))
    || (!r.phase.CleanupDestination? && t == TargetOp(AtDestination, r.destinationCleanupId))
  }

  predicate Early(phase: Phase) { phase.SourcePrepare? || phase.DestinationPrepare? || phase.Copying? }

  /** A target has journaled a failure of an operation that the record needs now. */
  predicate Jammed(d: Disk) {
    d.record.Some? && exists t :: t in d.failed && Needs(d.record.value, t)
  }

  predicate StorePhaseEnabled(d: Disk, r: Record) {
    match r.phase
    case DestinationPrepare => PhaseOp(r) in d.done && ValidRecord(WithCursor(r, 0, 0, d.nextId))
    case Finalize => r.finalizeId in d.receipts && ReceiptBound(r, d.receipts[r.finalizeId])
    case RecordSourceReceipt => PhaseOp(r) in d.done
    case CleanupSource => PhaseOp(r) in d.done
    case _ => false
  }

  predicate PerformEnabled(d: Disk, r: Record) {
    && (|| r.phase.DestinationPrepare? || r.phase.RecordSourceReceipt?
        || r.phase.CleanupSource? || r.phase.CleanupDestination?)
    && PhaseOp(r) !in d.done && PhaseOp(r) !in d.failed
  }

  ghost predicate Enabled(d: Disk, s: Step) {
    if s.Create? then d.record.None? && s.source != s.destination
    else if s.Compact? then s.op in d.failed
    else
      d.record.Some? &&
      var r := d.record.value;
      match s
      case Export(plan) =>
        r.phase.SourcePrepare? && PhaseOp(r) !in d.done && PhaseOp(r) !in d.failed && Honest(plan.files)
      case StorePlan(plan) =>
        && r.phase.SourcePrepare? && r.transferId in d.exported && d.exported[r.transferId] == plan
        && ValidRecord(r.(plan := Some(plan), phase := DestinationPrepare))
      case StorePhase => StorePhaseEnabled(d, r)
      case Exchange(op) =>
        && r.phase.Copying? && CopyOf(d).Some? && OpEnabled(CopyOf(d).value, op)
        && (op.Read? || WriteOp(CopyOf(d).value.cursor) !in d.failed)
      case StoreCursor =>
        && r.phase.Copying? && CopyOf(d).Some? && CopyOf(d).value.acked && CopyOf(d).value.answer.Some?
        && ValidRecord(Advanced(r, |CopyOf(d).value.answer.value|, d.nextId))
      case Publish => r.phase.Finalize? && PhaseOp(r) !in d.done && PhaseOp(r) !in d.failed
      case Perform => PerformEnabled(d, r)
      case Forget => r.phase.CleanupDestination? && PhaseOp(r) in d.done
      case Fail(t) => Needs(r, t) && t !in d.done && t !in d.failed
  }

  const NO_RECEIPT := Receipt("", 0, 0, "")

  function Apply(d: Disk, s: Step): Disk {
    if s.Create? then
      d.(record := Some(NewRecord(s.deployment, s.source, s.destination, d.nextId)),
         nextId := d.nextId + 5, partial := map[])
    else if s.Compact? then d.(failed := d.failed - {s.op})
    else
      if d.record.None? then d else
      var r := d.record.value;
      match s
      case Export(plan) => d.(exported := d.exported[r.transferId := plan], done := d.done + {PhaseOp(r)})
      case StorePlan(plan) =>
        d.(record := Some(r.(plan := Some(plan), phase := DestinationPrepare)), nextId := d.nextId + 2)
      case StorePhase =>
        d.(record := Some(AfterPhase(r, d.nextId,
             if r.finalizeId in d.receipts then d.receipts[r.finalizeId] else NO_RECEIPT)),
           nextId := d.nextId + 2)
      case Exchange(op) => if CopyOf(d).Some? then PutCopy(d, ApplyOp(CopyOf(d).value, op)) else d
      case StoreCursor =>
        if CopyOf(d).Some? && CopyOf(d).value.answer.Some? then
          d.(record := Some(Advanced(r, |CopyOf(d).value.answer.value|, d.nextId)), nextId := d.nextId + 2)
        else d
      case Publish =>
        if r.plan.None? then d else
        d.(published := d.published[r.transferId := Snapshot(r.plan.value, d.partial)],
           receipts := d.receipts[r.finalizeId := BoundReceipt(r)], done := d.done + {PhaseOp(r)})
      case Perform => d.(done := d.done + {PhaseOp(r)})
      case Forget => d.(record := None)
      case Fail(t) => d.(failed := d.failed + {t})
  }

  const FRESH := Disk(None, 0, map[], map[], map[], map[], map[], {}, {})

  ghost const MACHINE: Runs.Machine<Disk, Step> := Runs.Machine(FRESH, Enabled, Apply)
}
