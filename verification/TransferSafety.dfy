/** The copy is exactly-once over channels that lose answers and processes that die. */
module TransferSafety {
  import opened Prelude
  import opened TransferModel
  import Runs

  // ------------------------------------------------------------- invariant

  /** File i has arrived completely. */
  predicate Arrived(partial: map<string, seq<Byte>>, file: File) {
    file.size > 0 && file.path in partial && partial[file.path] == file.sha.bytes
  }

  /** The destination's tree is the plan's files and nothing else. */
  ghost predicate SameFiles(partial: map<string, seq<Byte>>, files: seq<File>) {
    && (forall i :: 0 <= i < |files| ==> Arrived(partial, files[i]))
    && OnlyPlanned(partial, files)
  }

  ghost predicate OnlyPlanned(partial: map<string, seq<Byte>>, files: seq<File>) {
    forall path :: path in partial ==> exists i :: 0 <= i < |files| && files[i].path == path
  }

  /** The destination holds the source's prefix up to the cursor, or further but within the
      one chunk that was read there, and all of that chunk once the write is journaled. */
  predicate ChunkInv(c: Copy) {
    var content := c.file.sha.bytes;
    var chunk := if c.answer.Some? then |c.answer.value| else 0;
    && 0 < c.file.size == |content| && c.cursor.offset < |content|
    && (c.answer.Some? ==> Slice(c.file, c.cursor.offset, c.answer.value))
    && (if c.here.None? then c.cursor.offset == 0
        else
          && c.cursor.offset <= |c.here.value| <= c.cursor.offset + chunk
          && |c.here.value| <= |content| && c.here.value == content[..|c.here.value|])
    && (c.acked ==> c.answer.Some? && c.here.Some? && |c.here.value| == c.cursor.offset + chunk)
  }

  /** The destination never refuses a chunk: what it has of it is a beginning of it. */
  lemma TargetAccepts(c: Copy)
    requires ChunkInv(c) && c.answer.Some?
    ensures Target(c) == Some(c.file.sha.bytes[..c.cursor.offset + |c.answer.value|])
  {
    var content, offset, bytes := c.file.sha.bytes, c.cursor.offset, c.answer.value;
    if c.here.Some? {
      var here := c.here.value;
      assert here[offset..] == content[offset..|here|] == bytes[..|here| - offset];
      assert here + bytes[|here| - offset..] == content[..offset + |bytes|];
    } else {
      assert bytes == content[..|bytes|];
    }
  }

  lemma OpKeepsChunkInv(c: Copy, op: ChunkOp)
    requires ChunkInv(c) && OpEnabled(c, op)
    ensures ChunkInv(ApplyOp(c, op))
  {
    if !op.Read? {
      TargetAccepts(c);
    }
  }

  lemma OpOnlyGrows(c: Copy, op: ChunkOp)
    requires ChunkInv(c) && OpEnabled(c, op) && c.here.Some?
    ensures ApplyOp(c, op).here.Some? && c.here.value <= ApplyOp(c, op).here.value
  {
    if !op.Read? {
      TargetAccepts(c);
    }
  }

  ghost predicate CopyInv(d: Disk, files: seq<File>, at: nat) {
    && CopyOf(d).Some? && ChunkInv(CopyOf(d).value)
    && (forall i :: 0 <= i < at < |files| ==> Arrived(d.partial, files[i]))
    && (forall i :: at < i < |files| ==> files[i].path !in d.partial)
    && OnlyPlanned(d.partial, files)
  }

  ghost predicate RecordInv(d: Disk, r: Record) {
    && ValidRecord(r)
    && FreshIds(d, r)
    && (r.plan.Some? ==> Honest(r.plan.value.files))
    && (Early(r.phase) ==> r.finalizeId !in d.receipts)
    && match r.phase
       case SourcePrepare => d.partial == map[]
       case DestinationPrepare => d.partial == map[]
       case Copying => CopyInv(d, r.plan.value.files, r.cursor.value.fileIndex)
       case Finalize =>
         && SameFiles(d.partial, r.plan.value.files)
         && (r.finalizeId in d.receipts ==> IsPublished(d, r))
       case _ => SameFiles(d.partial, r.plan.value.files) && r.receipt == Some(BoundReceipt(r)) && IsPublished(d, r)
  }

  /** The ids a record names were given out, and no two of them together. */
  predicate FreshIds(d: Disk, r: Record) {
    && r.finalizeId == r.transferId + 1 && r.receiptId == r.transferId + 2
    && r.sourceCleanupId == r.transferId + 3 && r.destinationCleanupId == r.transferId + 4
    && r.destinationCleanupId < d.nextId
    && (r.cursor.Some? ==>
          && r.destinationCleanupId < r.cursor.value.readId < d.nextId
          && r.destinationCleanupId < r.cursor.value.writeId < d.nextId)
  }

  predicate IsPublished(d: Disk, r: Record) {
    && r.plan.Some? && r.finalizeId in d.receipts && d.receipts[r.finalizeId] == BoundReceipt(r)
    && r.transferId in d.published && d.published[r.transferId] == Snapshot(r.plan.value, d.partial)
  }

  /** Nothing is both completed and failed, and no failed id is still to be given out. */
  ghost predicate FailedInv(d: Disk) {
    forall t :: t in d.failed ==> t.id < d.nextId && t !in d.done
  }

  /** What the targets' journals say, and that no later phase of the record has failed yet. */
  ghost predicate JournalInv(d: Disk) {
    && FailedInv(d)
    && (forall t :: t in d.done ==> t.id < d.nextId)
    && (forall id :: id in d.exported ==> TargetOp(AtSource, id) in d.done && Honest(d.exported[id].files))
    && (forall id :: id in d.answers ==> TargetOp(AtSource, id) in d.done)
    && (forall id :: id in d.receipts ==> TargetOp(AtDestination, id) in d.done)
    && (d.record.Some? ==>
          && (d.record.value.phase.SourcePrepare? || d.record.value.transferId in d.exported)
          && (forall t :: t in d.failed || t in d.done ==> !NeedsLater(d.record.value, t))
          && ResultsKept(d, d.record.value) && ReadsDoNotFail(d, d.record.value))
  }

  /** What the record needs now and a target has completed left its result there. */
  predicate ResultsKept(d: Disk, r: Record) {
    && (r.phase.SourcePrepare? && PhaseOp(r) in d.done ==> r.transferId in d.exported)
    && (r.phase.Copying? && r.cursor.Some? && ReadOp(r.cursor.value) in d.done ==> r.cursor.value.readId in d.answers)
    && (r.phase.Finalize? && PhaseOp(r) in d.done ==> r.finalizeId in d.receipts)
  }

  /** The operations of the record's place: the journaled one, and a read. */
  predicate Asks(r: Record, t: TargetOp) {
    Needs(r, t) || (r.phase.Copying? && r.cursor.Some? && t == ReadOp(r.cursor.value))
  }

  predicate ReadsDoNotFail(d: Disk, r: Record) {
    r.phase.Copying? && r.cursor.Some? ==> ReadOp(r.cursor.value) !in d.failed
  }

  ghost predicate FilesInv(d: Disk) {
    && (forall id :: id in d.answers ==> id < d.nextId)
    && (forall id :: id in d.receipts ==> id < d.nextId)
    && (forall id :: id in d.published ==> SameFiles(d.published[id].files, d.published[id].plan.files))
    && (d.record.Some? ==> RecordInv(d, d.record.value))
  }

  ghost predicate Inv(d: Disk) { FilesInv(d) && JournalInv(d) }

  lemma ChunkStep(d: Disk, op: ChunkOp)
    requires Inv(d) && Enabled(d, Exchange(op))
    ensures FilesInv(Apply(d, Exchange(op)))
  {
    var c, r := CopyOf(d).value, d.record.value;
    OpKeepsChunkInv(c, op);
    ChunkKeepsFiles(d, ApplyOp(c, op), r.plan.value.files, c.cursor.fileIndex);
    assert RecordInv(PutCopy(d, ApplyOp(c, op)), r);
  }

  /** A chunk touches no file but its own. */
  lemma ChunkKeepsFiles(d: Disk, c: Copy, files: seq<File>, at: nat)
    requires at < |files| && CopyInv(d, files, at) && Honest(files)
    requires CopyOf(d).value.file == c.file == files[at] && CopyOf(d).value.cursor == c.cursor
    requires ChunkInv(c) && (CopyOf(d).value.here.Some? ==> c.here.Some?)
    requires CopyOf(d).value.answer.Some? ==> c.answer.Some?
    requires CopyOf(d).value.acked ==> c.acked
    ensures CopyInv(PutCopy(d, c), files, at)
  {
    assert CopyOf(PutCopy(d, c)) == Some(c);
    assert OnlyPlanned(PutCopy(d, c).partial, files);
  }

  lemma CursorStep(d: Disk)
    requires Inv(d) && Enabled(d, StoreCursor)
    ensures FilesInv(Apply(d, StoreCursor))
  {
    var d', r := Apply(d, StoreCursor), d.record.value;
    assert d'.partial == d.partial && d'.receipts == d.receipts && d'.published == d.published;
    CursorMoves(d);
    assert RecordInv(d', d'.record.value);
  }

  ghost predicate CursorFits(d: Disk) {
    d.record.Some? && d.record.value.plan.Some? &&
    var r := d.record.value;
    if r.phase.Copying? then r.cursor.Some? && CopyInv(d, r.plan.value.files, r.cursor.value.fileIndex)
    else r.phase.Finalize? && SameFiles(d.partial, r.plan.value.files)
  }

  /** The next chunk, the next file or the end: what has arrived is what should have. */
  lemma CursorMoves(d: Disk)
    requires Inv(d) && Enabled(d, StoreCursor)
    ensures CursorFits(Apply(d, StoreCursor))
  {
    var c := CopyOf(d).value;
    if c.cursor.offset + |c.answer.value| < c.file.size {
      CursorMovesInFile(d);
    } else {
      CursorMovesToNext(d);
    }
  }

  lemma CursorMovesInFile(d: Disk)
    requires Inv(d) && Enabled(d, StoreCursor)
    requires var c := CopyOf(d).value; c.cursor.offset + |c.answer.value| < c.file.size
    ensures CursorFits(Apply(d, StoreCursor))
  {
    AckedHasPrefix(CopyOf(d).value);
    NextChunkIsFresh(d, Apply(d, StoreCursor));
  }

  lemma CursorMovesToNext(d: Disk)
    requires Inv(d) && Enabled(d, StoreCursor)
    requires var c := CopyOf(d).value; c.cursor.offset + |c.answer.value| >= c.file.size
    ensures CursorFits(Apply(d, StoreCursor))
  {
    var d', c := Apply(d, StoreCursor), CopyOf(d).value;
    AckedHasPrefix(c);
    assert Arrived(d.partial, c.file);
    if d'.record.value.phase.Copying? { NextChunkIsFresh(d, d'); }
  }

  lemma AckedHasPrefix(c: Copy)
    requires ChunkInv(c) && c.acked
    ensures c.answer.Some? && c.here == Some(c.file.sha.bytes[..c.cursor.offset + |c.answer.value|])
  {
  }

  /** No target knows the ids of a cursor that has just been stored. */
  lemma NextChunkIsFresh(d: Disk, d': Disk)
    requires Inv(d) && Enabled(d, StoreCursor) && d' == Apply(d, StoreCursor)
    requires d'.record.value.phase.Copying?
    ensures CopyOf(d').Some? && CopyOf(d').value.answer.None? && !CopyOf(d').value.acked
    ensures CopyOf(d').value.file == d.record.value.plan.value.files[d'.record.value.cursor.value.fileIndex]
  {
  }

  lemma BeginStep(d: Disk, s: Step)
    requires Inv(d) && Enabled(d, s) && (s.Create? || s.StorePlan? || s.Forget?)
    ensures FilesInv(Apply(d, s))
  {
  }

  lemma PhaseStep(d: Disk, s: Step)
    requires Inv(d) && Enabled(d, s) && (s.StorePhase?)
    ensures FilesInv(Apply(d, s))
  {
  }

  lemma PublishStep(d: Disk, s: Step)
    requires Inv(d) && Enabled(d, s) && (s.Publish? || s.Perform?)
    ensures FilesInv(Apply(d, s))
  {
  }

  lemma JournalOnlyStep(d: Disk, s: Step)
    requires Inv(d) && Enabled(d, s) && (s.Export? || s.Fail? || s.Compact?)
    ensures FilesInv(Apply(d, s))
  {
  }

  lemma FilesStep(d: Disk, s: Step)
    requires Inv(d) && Enabled(d, s)
    ensures FilesInv(Apply(d, s))
  {
    match s
    case StoreCursor => CursorStep(d);
    case Exchange(op) => ChunkStep(d, op);
    case StorePhase => PhaseStep(d, s);
    case Publish => PublishStep(d, s);
    case Perform => PublishStep(d, s);
    case Export(_) => JournalOnlyStep(d, s);
    case Fail(_) => JournalOnlyStep(d, s);
    case Compact(_) => JournalOnlyStep(d, s);
    case _ => BeginStep(d, s);
  }

  /** The steps that replace the record. */
  predicate Stores(s: Step) { s.Create? || s.StorePlan? || s.StorePhase? || s.StoreCursor? || s.Forget? }

  ghost predicate JournalReady(d: Disk) {
    JournalInv(d) && (d.record.Some? ==> FreshIds(d, d.record.value))
  }

  lemma JournalCreate(d: Disk, deployment: string, source: Host, destination: Host)
    requires JournalReady(d) && Enabled(d, Create(deployment, source, destination))
    ensures JournalInv(Apply(d, Create(deployment, source, destination)))
  {
  }

  lemma JournalPlan(d: Disk, plan: Plan)
    requires JournalReady(d) && Enabled(d, StorePlan(plan))
    ensures JournalInv(Apply(d, StorePlan(plan)))
  {
  }

  lemma JournalForget(d: Disk)
    requires JournalReady(d) && Enabled(d, Forget)
    ensures JournalInv(Apply(d, Forget))
  {
  }

  /** What a record needs after its phase moved on it had named for later, or names now. */
  lemma PhaseMovesOn(r: Record, id: Id, receipt: Receipt, t: TargetOp)
    requires !r.phase.SourcePrepare? && !r.phase.Copying? && !r.phase.CleanupDestination?
    ensures NeedsLater(AfterPhase(r, id, receipt), t) ==> NeedsLater(r, t)
    ensures Asks(AfterPhase(r, id, receipt), t) ==> t.id >= id || NeedsLater(r, t)
  {
  }

  lemma CursorMovesOn(r: Record, consumed: nat, id: Id, t: TargetOp)
    requires r.phase.Copying? && ValidRecord(r)
    ensures NeedsLater(Advanced(r, consumed, id), t) ==> NeedsLater(r, t)
    ensures Asks(Advanced(r, consumed, id), t) ==> t.id >= id || NeedsLater(r, t)
  {
  }

  /** A record that moves on needs nothing that was asked before, now or later. */
  lemma MovesFree(d: Disk, s: Step, t: TargetOp)
    requires Inv(d) && Enabled(d, s) && (s.StorePhase? || s.StoreCursor?)
    requires t in d.failed || t in d.done
    ensures !NeedsLater(Apply(d, s).record.value, t) && !Asks(Apply(d, s).record.value, t)
  {
    var r := d.record.value;
    if s.StorePhase? {
      PhaseMovesOn(r, d.nextId, if r.finalizeId in d.receipts then d.receipts[r.finalizeId] else NO_RECEIPT, t);
    } else {
      CursorMovesOn(r, |CopyOf(d).value.answer.value|, d.nextId, t);
    }
  }

  lemma JournalMoveStep(d: Disk, s: Step)
    requires Inv(d) && Enabled(d, s) && (s.StorePhase? || s.StoreCursor?)
    ensures JournalInv(Apply(d, s))
  {
    var d' := Apply(d, s);
    forall t | t in d.failed || t in d.done
      ensures !NeedsLater(d'.record.value, t) && !Asks(d'.record.value, t)
    {
      MovesFree(d, s, t);
    }
    assert d'.failed == d.failed && d'.done == d.done && d'.exported == d.exported && d'.answers == d.answers;
    assert d'.record.value.transferId == d.record.value.transferId;
  }

  lemma JournalExport(d: Disk, plan: Plan)
    requires JournalReady(d) && Enabled(d, Export(plan))
    ensures JournalInv(Apply(d, Export(plan)))
  {
  }

  lemma JournalPublish(d: Disk)
    requires JournalReady(d) && Enabled(d, Publish)
    ensures JournalInv(Apply(d, Publish))
  {
  }

  lemma JournalPerform(d: Disk)
    requires JournalReady(d) && Enabled(d, Perform)
    ensures JournalInv(Apply(d, Perform))
  {
  }

  lemma JournalRead(d: Disk, op: ChunkOp)
    requires JournalReady(d) && Enabled(d, Exchange(op)) && op.Read?
    ensures JournalInv(Apply(d, Exchange(op)))
  {
    var c, d' := CopyOf(d).value, Apply(d, Exchange(op));
    assert forall t :: t in d'.done ==> t in d.done || t == ReadOp(c.cursor);
  }

  lemma JournalWrite(d: Disk, op: ChunkOp)
    requires JournalReady(d) && Enabled(d, Exchange(op)) && !op.Read?
    ensures JournalInv(Apply(d, Exchange(op)))
  {
    var c, d' := CopyOf(d).value, Apply(d, Exchange(op));
    assert ReadOp(c.cursor) in d.done;
    assert forall t :: t in d'.done ==> t in d.done || t == WriteOp(c.cursor);
  }

  lemma JournalFailure(d: Disk, t: TargetOp)
    requires JournalReady(d) && Enabled(d, Fail(t))
    ensures JournalInv(Apply(d, Fail(t)))
  {
  }

  lemma JournalCompaction(d: Disk, t: TargetOp)
    requires JournalReady(d) && Enabled(d, Compact(t))
    ensures JournalInv(Apply(d, Compact(t)))
  {
  }

  lemma JournalStep(d: Disk, s: Step)
    requires Inv(d) && Enabled(d, s)
    ensures JournalInv(Apply(d, s))
  {
    match s
    case StorePhase => JournalMoveStep(d, s);
    case StoreCursor => JournalMoveStep(d, s);
    case Create(deployment, source, destination) => JournalCreate(d, deployment, source, destination);
    case StorePlan(plan) => JournalPlan(d, plan);
    case Forget => JournalForget(d);
    case Export(plan) => JournalExport(d, plan);
    case Publish => JournalPublish(d);
    case Perform => JournalPerform(d);
    case Exchange(op) => if op.Read? { JournalRead(d, op); } else { JournalWrite(d, op); }
    case Fail(t) => JournalFailure(d, t);
    case Compact(t) => JournalCompaction(d, t);
  }

  lemma StepKeepsInv(d: Disk, s: Step)
    requires Inv(d) && Enabled(d, s)
    ensures Inv(Apply(d, s))
  {
    FilesStep(d, s);
    JournalStep(d, s);
  }

  lemma {:induction false} RunKeepsInv(log: seq<Step>)
    requires Runs.IsRun(MACHINE, log)
    ensures Inv(Runs.After(MACHINE, log))
  {
    forall d, s | Inv(d) && Enabled(d, s) ensures Inv(Apply(d, s)) {
      StepKeepsInv(d, s);
    }
    Runs.Inductive(MACHINE, Inv, log);
  }

  // --------------------------------------------------------------- theorems

  ghost function DiskAfter(log: seq<Step>): Disk { Runs.After(MACHINE, log) }
  ghost predicate IsRun(log: seq<Step>) { Runs.IsRun(MACHINE, log) }

  /** While files are copied, every earlier file has arrived, no later one has begun, and the
      current one holds the source's bytes up to the cursor or within one chunk beyond it. */
  lemma {:induction false} PrefixAtCursor(log: seq<Step>)
    requires IsRun(log) && DiskAfter(log).record.Some? && DiskAfter(log).record.value.phase.Copying?
    ensures var d := DiskAfter(log);
            var r := d.record.value;
            && ValidRecord(r)
            && var at, offset := r.cursor.value.fileIndex, r.cursor.value.offset;
            && var files := r.plan.value.files;
            && (forall i :: 0 <= i < at ==> Arrived(d.partial, files[i]))
            && (forall i :: at < i < |files| ==> files[i].path !in d.partial)
            && CopyOf(d).Some?
            && var c := CopyOf(d).value;
            && offset <= Length(c.here) <= offset + (if c.answer.Some? then |c.answer.value| else 0)
            && (c.here.Some? ==> c.here.value <= files[at].sha.bytes)
  {
    RunKeepsInv(log);
    var c := CopyOf(DiskAfter(log)).value;
    assert ChunkInv(c);
  }

  /** From `Finalize` on, the destination's tree is the planned files, byte for byte. */
  lemma {:induction false} FinalizeMeansEqual(log: seq<Step>)
    requires IsRun(log) && DiskAfter(log).record.Some? && !Early(DiskAfter(log).record.value.phase)
    ensures var d := DiskAfter(log);
            var r := d.record.value;
            r.plan.Some? && SameFiles(d.partial, r.plan.value.files)
  {
    RunKeepsInv(log);
  }

  lemma {:induction false} PublishedIsSource(log: seq<Step>, id: Id)
    requires IsRun(log) && id in DiskAfter(log).published
    ensures var snapshot := DiskAfter(log).published[id];
            SameFiles(snapshot.files, snapshot.plan.files)
  {
    RunKeepsInv(log);
  }

  /** Two hosts; a plan of this transfer from the moment the source has been asked; a cursor
      inside a file exactly while files are copied; and a receipt for it exactly afterwards. */
  predicate Loads(r: Record) {
    && r.source != r.destination
    && (r.plan.None? <==> r.phase.SourcePrepare?)
    && (r.plan.Some? ==>
          && r.plan.value.operationId == r.transferId && r.plan.value.deployment == r.deployment
          && r.plan.value.files != [])
    && (r.cursor.Some? <==> r.phase.Copying?)
    && (r.phase.Copying? ==>
          && r.cursor.value.fileIndex < |r.plan.value.files|
          && r.cursor.value.offset < r.plan.value.files[r.cursor.value.fileIndex].size)
    && (r.receipt.Some? <==> !Early(r.phase) && !r.phase.Finalize?)
    && (r.receipt.Some? ==>
          r.receipt.value == Receipt(r.deployment, r.source, r.destination, r.plan.value.manifest))
  }

  /** Every record the controller stores can be loaded again, and its next offset fits. */
  lemma {:induction false} StoredRecordsLoad(log: seq<Step>)
    requires IsRun(log) && DiskAfter(log).record.Some?
    ensures var d := DiskAfter(log);
            && ValidRecord(d.record.value) && Loads(d.record.value)
            && (CopyOf(d).Some? && CopyOf(d).value.answer.Some? && d.record.value.phase.Copying? ==>
                  CopyOf(d).value.cursor.offset + |CopyOf(d).value.answer.value| <= U64_MAX)
  {
    RunKeepsInv(log);
    var d := DiskAfter(log);
    if d.record.value.phase.Copying? {
      assert ChunkInv(CopyOf(d).value);
      assert Honest(d.record.value.plan.value.files);
    }
  }

  /** Within one transfer the destination's files only grow: no byte is written twice and
      none is taken back. */
  lemma {:induction false} FilesOnlyGrow(log: seq<Step>, s: Step, path: string)
    requires IsRun(log) && Enabled(DiskAfter(log), s) && !s.Create?
    requires path in DiskAfter(log).partial
    ensures path in Apply(DiskAfter(log), s).partial
    ensures DiskAfter(log).partial[path] <= Apply(DiskAfter(log), s).partial[path]
  {
    RunKeepsInv(log);
    StepOnlyGrows(DiskAfter(log), s, path);
  }

  lemma StepOnlyGrows(d: Disk, s: Step, path: string)
    requires FilesInv(d) && Enabled(d, s) && !s.Create? && path in d.partial
    ensures path in Apply(d, s).partial && d.partial[path] <= Apply(d, s).partial[path]
  {
    if s.Exchange? {
      var c := CopyOf(d).value;
      if c.here.Some? { OpOnlyGrows(c, s.chunk); }
    } else {
      assert Apply(d, s).partial == d.partial;
    }
  }

  /** An empty file is never copied: the record before it can never be stored. */
  lemma {:induction false} EmptyFileBlocks(log: seq<Step>, i: nat)
    requires IsRun(log) && DiskAfter(log).record.Some? && DiskAfter(log).record.value.plan.Some?
    requires var files := DiskAfter(log).record.value.plan.value.files; i < |files| && files[i].size == 0
    ensures var r := DiskAfter(log).record.value;
            && Early(r.phase)
            && (r.cursor.Some? ==> r.cursor.value.fileIndex < i)
  {
    RunKeepsInv(log);
    EmptyFileNotPassed(DiskAfter(log), DiskAfter(log).record.value, i);
  }

  lemma EmptyFileNotPassed(d: Disk, r: Record, i: nat)
    requires d.record == Some(r) && RecordInv(d, r) && r.plan.Some?
    requires i < |r.plan.value.files| && r.plan.value.files[i].size == 0
    ensures Early(r.phase) && (r.cursor.Some? ==> r.cursor.value.fileIndex < i)
  {
    var file := r.plan.value.files[i];
    assert !Arrived(d.partial, file);
    if r.phase.Copying? {
      assert CopyOf(d).value.file == r.plan.value.files[r.cursor.value.fileIndex];
    }
  }

  const TWO_FILES := [File("full", 1, Sha256([0])), File("empty", 0, Sha256([]))]

  /** Such a plan is not refused when it is stored: the record that holds it is valid. */
  lemma EmptyFileIsAccepted() returns (log: seq<Step>)
    ensures IsRun(log) && DiskAfter(log).record.Some?
    ensures var r := DiskAfter(log).record.value;
            && r.phase.DestinationPrepare? && r.plan.Some? && r.plan.value.files == TWO_FILES
            && TWO_FILES[1].size == 0
  {
    var manifest := seq(64, i => '0');
    var plan := Plan(0, "deployment", manifest, TWO_FILES);
    assert ValidSha256(manifest) && Honest(TWO_FILES);
    var created := FRESH.(record := Some(NewRecord("deployment", 1, 2, 0)), nextId := 5);
    var planned := NewRecord("deployment", 1, 2, 0).(plan := Some(plan), phase := DestinationPrepare);
    var exported := created.(exported := map[0 := plan], done := {} + {TargetOp(AtSource, 0)});
    var script := [
      (Create("deployment", 1, 2), created),
      (Export(plan), exported),
      (StorePlan(plan), exported.(record := Some(planned), nextId := 7))];
    forall i | 0 <= i < |script| ensures Runs.PlaysAt(MACHINE, FRESH, script, i) {
    }
    Runs.Play(MACHINE, [], script);
    log := [] + Runs.StepsOf(script);
  }

  // ------------------------------------------------------- nothing is skipped

  /** What the targets have done when a record has come to its phase. */
  predicate Passed(done: set<TargetOp>, r: Record) {
    && (!r.phase.SourcePrepare? ==> TargetOp(AtSource, r.transferId) in done)
    && (!r.phase.SourcePrepare? && !r.phase.DestinationPrepare? ==> TargetOp(AtDestination, r.transferId) in done)
    && (r.phase.RecordSourceReceipt? || r.phase.CleanupSource? || r.phase.CleanupDestination? ==>
          TargetOp(AtDestination, r.finalizeId) in done)
    && (r.phase.CleanupSource? || r.phase.CleanupDestination? ==> TargetOp(AtSource, r.receiptId) in done)
    && (r.phase.CleanupDestination? ==> TargetOp(AtSource, r.sourceCleanupId) in done)
  }

  /** Both ends prepared, the snapshot finalized, its receipt recorded with the source, and
      both ends cleaned up. */
  predicate AllDone(done: set<TargetOp>, r: Record) {
    && TargetOp(AtSource, r.transferId) in done && TargetOp(AtDestination, r.transferId) in done
    && TargetOp(AtDestination, r.finalizeId) in done && TargetOp(AtSource, r.receiptId) in done
    && TargetOp(AtSource, r.sourceCleanupId) in done && TargetOp(AtDestination, r.destinationCleanupId) in done
  }

  lemma StepSkipsNothing(d: Disk, s: Step)
    requires Inv(d) && Enabled(d, s) && (d.record.Some? ==> Passed(d.done, d.record.value))
    ensures d.done <= Apply(d, s).done
    ensures Apply(d, s).record.Some? ==> Passed(Apply(d, s).done, Apply(d, s).record.value)
  {
    if s.StorePlan? {
      assert TargetOp(AtSource, d.record.value.transferId) in d.done;
    }
  }

  /** A record reaches a phase only after the targets have carried out every operation of the
      phases before it. */
  lemma {:induction false} NothingIsSkipped(log: seq<Step>)
    requires IsRun(log) && DiskAfter(log).record.Some?
    ensures Passed(DiskAfter(log).done, DiskAfter(log).record.value)
  {
    var inv := (d: Disk) => Inv(d) && (d.record.Some? ==> Passed(d.done, d.record.value));
    forall d, s | inv(d) && Enabled(d, s) ensures inv(Apply(d, s)) {
      StepKeepsInv(d, s);
      StepSkipsNothing(d, s);
    }
    Runs.Inductive(MACHINE, inv, log);
  }

  /** A transfer is forgotten exactly when it has come to its last phase and all six of its
      operations were carried out, each on its own side. */
  lemma {:induction false} ForgottenWhenDone(log: seq<Step>)
    requires IsRun(log) && DiskAfter(log).record.Some?
    ensures var d := DiskAfter(log);
            Enabled(d, Forget) <==> d.record.value.phase.CleanupDestination? && AllDone(d.done, d.record.value)
  {
    NothingIsSkipped(log);
  }

  // ------------------------------------------------ failures that are repeated

  /** A record jammed by a failure that a target has journaled stays where it is: no step of
      anyone moves it, except that the target's journal forgets the failure. */
  lemma {:induction false} JamStays(log: seq<Step>, s: Step)
    requires IsRun(log) && Enabled(DiskAfter(log), s) && Jammed(DiskAfter(log)) && !s.Compact?
    ensures Apply(DiskAfter(log), s).record == DiskAfter(log).record && Jammed(Apply(DiskAfter(log), s))
  {
    RunKeepsInv(log);
    var d := DiskAfter(log);
    var t :| t in d.failed && Needs(d.record.value, t);
    assert t !in d.done && t in Apply(d, s).failed;
  }

  lemma {:induction false} JamIsForGood(log: seq<Step>, more: seq<Step>)
    requires IsRun(log + more) && Jammed(DiskAfter(log))
    requires forall i :: 0 <= i < |more| ==> !more[i].Compact?
    ensures DiskAfter(log + more).record == DiskAfter(log).record && Jammed(DiskAfter(log + more))
  {
    if more == [] {
      assert log + more == log;
    } else {
      var init := more[..|more| - 1];
      assert (log + more)[..|log + more| - 1] == log + init;
      JamIsForGood(log, init);
      JamStays(log + init, more[|more| - 1]);
    }
  }

  /** A jam begins with the target's journaled failure and with nothing else; in particular
      a record that moves on is never jammed. */
  lemma {:induction false} JamBegins(log: seq<Step>, s: Step)
    requires IsRun(log) && Enabled(DiskAfter(log), s) && !Jammed(DiskAfter(log))
    ensures Jammed(Apply(DiskAfter(log), s)) <==> s.Fail?
  {
    RunKeepsInv(log);
    StepJams(DiskAfter(log), s);
  }

  lemma StepJams(d: Disk, s: Step)
    requires Inv(d) && Enabled(d, s) && !Jammed(d)
    ensures Jammed(Apply(d, s)) <==> s.Fail?
  {
    if s.Fail? {
      assert s.op in Apply(d, s).failed && Needs(d.record.value, s.op);
    } else if Stores(s) {
      StoredIsUnjammed(d, s);
    } else {
      assert Apply(d, s).failed <= d.failed && Apply(d, s).record == d.record;
    }
  }

  lemma StoredIsUnjammed(d: Disk, s: Step)
    requires Inv(d) && Enabled(d, s) && Stores(s)
    ensures !Jammed(d) && !Jammed(Apply(d, s))
  {
    var d' := Apply(d, s);
    if d.record.Some? {
      CompletedIsUnjammed(d, s);
    }
    if d'.record.Some? {
      forall t | t in d'.failed ensures !Needs(d'.record.value, t) {
        if s.StorePhase? || s.StoreCursor? { MovesFree(d, s, t); }
      }
    }
  }

  /** What a step stores, the targets had completed. */
  lemma CompletedIsUnjammed(d: Disk, s: Step)
    requires Inv(d) && Enabled(d, s) && Stores(s) && d.record.Some?
    ensures !Jammed(d)
  {
    forall t | Needs(d.record.value, t) ensures t !in d.failed {
      assert t in d.done;
    }
  }

  /** A copy asked for before there is a snapshot: the source journals that it has none, and
      will answer so for this transfer ever after. */
  lemma JamHappens() returns (log: seq<Step>)
    ensures IsRun(log) && Jammed(DiskAfter(log)) && DiskAfter(log).record.value.phase.SourcePrepare?
  {
    var created := FRESH.(record := Some(NewRecord("deployment", 1, 2, 0)), nextId := 5);
    var none := TargetOp(AtSource, 0);
    var script := [
      (Create("deployment", 1, 2), created),
      (Fail(none), created.(failed := {} + {none}))];
    forall i | 0 <= i < |script| ensures Runs.PlaysAt(MACHINE, FRESH, script, i) {
    }
    Runs.Play(MACHINE, [], script);
    log := [] + Runs.StepsOf(script);
    assert none in DiskAfter(log).failed && Needs(DiskAfter(log).record.value, none);
  }

  // -------------------------------------------------------------- durable ids

  predicate Names(r: Record, id: Id) {
    || id == r.transferId || id == r.finalizeId || id == r.receiptId
    || id == r.sourceCleanupId || id == r.destinationCleanupId
    || (r.cursor.Some? && (id == r.cursor.value.readId || id == r.cursor.value.writeId))
  }

  /** A target has carried out this operation, or journaled that it failed. */
  predicate Reached(d: Disk, t: TargetOp) { t in d.done || t in d.failed }

  lemma ReachedIsNamed(d: Disk, s: Step, t: TargetOp)
    requires Enabled(d, s) && !Reached(d, t) && Reached(Apply(d, s), t)
    ensures d.record.Some? && Names(d.record.value, t.id)
  {
  }

  /** Whatever operation reached a target, some stored record named before. */
  lemma {:induction false} IdsAreDurableFirst(log: seq<Step>, t: TargetOp) returns (k: nat)
    requires IsRun(log) && Reached(DiskAfter(log), t)
    ensures k < |log| && IsRun(log[..k])
    ensures DiskAfter(log[..k]).record.Some? && Names(DiskAfter(log[..k]).record.value, t.id)
  {
    var init := log[..|log| - 1];
    if Reached(DiskAfter(init), t) {
      k := IdsAreDurableFirst(init, t);
      assert init[..k] == log[..k];
    } else {
      ReachedIsNamed(DiskAfter(init), log[|log| - 1], t);
      k := |log| - 1;
    }
  }
}
