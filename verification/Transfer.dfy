/** `backup copy`: the coordinator loop between two targets that answer a repeated
    operation id from their journals, be it with a result or with a failure. Any answer may
    be lost, any local write may fail or be the last thing the process does. */
module Transfer {
  import opened Prelude
  import opened TransferModel
  import opened TransferSafety
  import Runs

  /** The plan this transfer copies by: the stored one, the one the source has exported, or
      the one it would export now. */
  function PlanFor(d: Disk, offer: Plan): Plan {
    if d.record.None? then offer
    else if d.record.value.plan.Some? then d.record.value.plan.value
    else if d.record.value.transferId in d.exported then d.exported[d.record.value.transferId]
    else offer
  }

  /** What it takes to finish: a plan the record may hold, and no empty file in it. */
  predicate CanFinish(d: Disk, offer: Plan) {
    && d.record.Some?
    && PlanFor(d, offer).operationId == d.record.value.transferId
    && PlanFor(d, offer).deployment == d.record.value.deployment
    && ValidSha256(PlanFor(d, offer).manifest) && |PlanFor(d, offer).files| > 0
    && forall i :: 0 <= i < |PlanFor(d, offer).files| ==> PlanFor(d, offer).files[i].size > 0
  }

  predicate HasEmptyFile(r: Record) {
    r.plan.Some? && exists i :: 0 <= i < |r.plan.value.files| && r.plan.value.files[i].size == 0
  }

  /** The source's answer carries the bindings of the request. */
  function ChunkAt(r: Record, c: Copy, bytes: seq<Byte>): Chunk {
    Chunk(r.transferId, c.file.path, c.cursor.offset, c.file.size, c.file.sha, bytes)
  }

  /** An answer that is not about the request, or brings nothing. */
  predicate Foreign(r: Record, c: Copy, chunk: Chunk) {
    chunk.bytes == [] || chunk != ChunkAt(r, c, chunk.bytes)
  }

  /** The destination's first answer: nothing has arrived yet. */
  function NothingYet(r: Record): Plan { Plan(r.transferId, r.deployment, "", []) }

  /** What the coordinator demands of a chunk before it sends it on. */
  predicate ChunkMatches(r: Record, c: Copy, chunk: Chunk) {
    && chunk.operationId == r.transferId && chunk.path == c.file.path && chunk.offset == c.cursor.offset
    && chunk.total == c.file.size && chunk.sha == c.file.sha && chunk.bytes != []
  }

  predicate Bindings(r: Record, deployment: string, source: Host, destination: Host) {
    r.deployment == deployment && r.source == source && r.destination == destination
  }

  /** What the coordinator demands of the destination's first answer. */
  predicate DestinationPlanMatches(r: Record, plan: Plan) {
    plan.operationId == r.transferId && plan.deployment == r.deployment && plan.manifest == "" && plan.files == []
  }

  function PhasesLeft(phase: Phase): nat {
    match phase
    case SourcePrepare => 6
    case DestinationPrepare => 5
    case Copying => 4
    case Finalize => 3
    case RecordSourceReceipt => 2
    case CleanupSource => 1
    case CleanupDestination => 0
  }

  function FilesLeft(r: Record): nat {
    if r.plan.Some? && r.cursor.Some? && r.cursor.value.fileIndex < |r.plan.value.files|
    then |r.plan.value.files| - r.cursor.value.fileIndex else 0
  }

  function BytesLeft(r: Record): nat {
    if r.plan.Some? && r.cursor.Some? && InRange(r.plan.value, r.cursor.value)
    then r.plan.value.files[r.cursor.value.fileIndex].size - r.cursor.value.offset else 0
  }

  /** Lexicographic progress of the loop. */
  predicate Nearer(now: Record, before: Record) {
    || PhasesLeft(now.phase) < PhasesLeft(before.phase)
    || (now.phase == before.phase && FilesLeft(now) < FilesLeft(before))
    || (now.phase == before.phase && FilesLeft(now) == FilesLeft(before) && BytesLeft(now) < BytesLeft(before))
  }

  /** The same transfer, by the same plan if it had one. */
  predicate SameTransfer(now: Record, before: Record) {
    && now.transferId == before.transferId && now.deployment == before.deployment
    && now.finalizeId == before.finalizeId && now.receiptId == before.receiptId
    && now.sourceCleanupId == before.sourceCleanupId && now.destinationCleanupId == before.destinationCleanupId
    && now.source == before.source && now.destination == before.destination
    && (before.plan.Some? ==> now.plan == before.plan)
  }

  lemma EmptyFileEndsIt(d: Disk, offer: Plan)
    requires d.record.Some? && HasEmptyFile(d.record.value)
    ensures !CanFinish(d, offer)
  {
    var r := d.record.value;
    var i :| 0 <= i < |r.plan.value.files| && r.plan.value.files[i].size == 0;
    assert PlanFor(d, offer).files[i].size == 0;
  }

  /** What one turn of the loop achieves. */
  predicate Progress(now: Record, before: Record, plan: Plan) {
    && Nearer(now, before) && SameTransfer(now, before) && now.plan.Some?
    && (before.plan.None? ==> ValidPlan(before, plan) && now.plan == Some(plan))
  }

  lemma AdvancedIsNearer(r: Record, consumed: nat, id: Id)
    requires ValidRecord(r) && r.phase.Copying? && consumed > 0
    ensures Nearer(Advanced(r, consumed, id), r) && SameTransfer(Advanced(r, consumed, id), r)
    ensures ValidRecord(Advanced(r, consumed, id)) <==>
            var next := Advanced(r, consumed, id);
            next.cursor.Some? ==> r.plan.value.files[next.cursor.value.fileIndex].size > 0
  {
  }

  class Coordinator {
    // No write fails, no answer is lost, no process is killed, and no target newly fails.
    const calm: bool
    var record: Option<Record>
    var nextId: Id
    var exported: map<Id, Plan>
    var answers: map<Id, seq<Byte>>
    var partial: map<string, seq<Byte>>
    var published: map<Id, Snapshot>
    var receipts: map<Id, Receipt>
    var done: set<TargetOp>
    var failed: set<TargetOp>
    ghost var log: seq<Step>

    function Snap(): Disk reads this {
      Disk(record, nextId, exported, answers, partial, published, receipts, done, failed)
    }

    ghost predicate Valid() reads this {
      Runs.IsRun(MACHINE, log) && Runs.After(MACHINE, log) == Snap()
    }

    ghost predicate Holds(r: Record) reads this { Valid() && record == Some(r) }

    constructor (calm: bool)
      ensures Valid() && Snap() == FRESH && this.calm == calm
    {
      this.calm := calm;
      record, nextId, exported, answers, partial := None, 0, map[], map[], map[];
      published, receipts, done, failed := map[], map[], {}, {};
      log := [];
    }

    /** Whether an answer reaches the controller. */
    method Arrives() returns (arrives: bool)
      ensures calm ==> arrives
    {
      arrives := *;
      if calm { arrives := true; }
    }

    /** What every run keeps, as far as a turn of the loop relies on it. */
    lemma RecordFacts(r: Record)
      requires Holds(r)
      ensures ValidRecord(r)
      ensures r.phase.SourcePrepare? ==> r.plan.None? && (PhaseOp(r) in done <==> r.transferId in exported)
      ensures r.transferId in exported ==> Honest(exported[r.transferId].files)
      ensures r.phase.Finalize? && r.finalizeId in receipts ==> receipts[r.finalizeId] == BoundReceipt(r)
      ensures r.phase.Finalize? && PhaseOp(r) in done ==> r.finalizeId in receipts
      ensures r.phase.Copying? ==>
                && CopyOf(Snap()).Some?
                && var c := CopyOf(Snap()).value;
                ChunkInv(c) && r.cursor == Some(c.cursor) && (ReadOp(c.cursor) in done <==> c.answer.Some?)
    {
      RunKeepsInv(log);
      assert RecordInv(Snap(), r);
    }

    lemma StoreFrees(s: Step)
      requires Valid() && Enabled(Snap(), s) && Stores(s)
      ensures !Jammed(Snap()) && !Jammed(Apply(Snap(), s))
    {
      RunKeepsInv(log);
      StoredIsUnjammed(Snap(), s);
    }

    // ----------------------------------------------------- local durable writes

    /** A new record, unless one of an earlier run is still there. */
    method Begin(deployment: string, source: Host, destination: Host) returns (io: Io)
      requires Valid() && record.None? && source != destination
      modifies `record, `nextId, `partial, `log
      ensures Valid() && (calm ==> io.Done?)
      ensures record == if io.Done? then Some(NewRecord(deployment, source, destination, old(nextId))) else None
    {
      io := Attempt(calm);
      if io.Done? {
        Runs.Extend(MACHINE, log, Create(deployment, source, destination));
        record := Some(NewRecord(deployment, source, destination, nextId));
        nextId, partial := nextId + 5, map[];
        log := log + [Create(deployment, source, destination)];
      }
    }

    /** `TransferJournal.store`: validates, then replaces the file. Each store may use up two
        fresh ids. */
    method Store(r: Record, next: Record, ghost s: Step) returns (ok: bool)
      requires Holds(r)
      requires ValidRecord(next) ==> Enabled(Snap(), s) && (s.StorePlan? || s.StorePhase? || s.StoreCursor?)
      requires Apply(Snap(), s) == Snap().(record := Some(next), nextId := nextId + 2)
      modifies `record, `nextId, `log
      ensures Holds(if ok then next else r)
      ensures ok ==> ValidRecord(next)
      ensures ok ==> !old(Jammed(Snap())) && !Jammed(Snap())
      ensures calm ==> (ok <==> ValidRecord(next))
    {
      ok := ValidRecord(next);
      if ok {
        var io := Attempt(calm);
        ok := io.Done?;
        if ok {
          StoreFrees(s);
          Runs.Extend(MACHINE, log, s);
          record, nextId := Some(next), nextId + 2;
          log := log + [s];
        }
      }
    }

    method Clear(r: Record) returns (ok: bool)
      requires Holds(r) && Enabled(Snap(), Forget)
      modifies `record, `log
      ensures Valid() && record == (if ok then None else Some(r)) && (calm ==> ok)
      ensures ok ==> !old(Jammed(Snap()))
    {
      var io := Attempt(calm);
      ok := io.Done?;
      if ok {
        StoreFrees(Forget);
        Runs.Extend(MACHINE, log, Forget);
        record := None;
        log := log + [Forget];
      }
    }

    // ------------------------------------------------------- remote operations

    /** Whether a target answers an operation it has not completed with a failure, an earlier
        one or a new one. A failure is journaled and repeated. */
    method Refuses(r: Record, t: TargetOp) returns (refuses: bool)
      requires Holds(r) && Needs(r, t) && t !in done
      modifies `failed, `log
      ensures Holds(r) && (refuses <==> t in failed) && old(failed) <= failed
      ensures calm ==> failed == old(failed)
    {
      if t in failed { return true; }
      var fails := Oracle();
      refuses := fails && !calm;
      if refuses {
        Runs.Extend(MACHINE, log, Fail(t));
        failed := failed + {t};
        log := log + [Fail(t)];
      }
    }

    /** An operation without an answer worth keeping; a repeated id is not done again. */
    method PerformRemotely(r: Record) returns (ok: bool)
      requires Holds(r)
      requires r.phase.DestinationPrepare? || r.phase.RecordSourceReceipt? || r.phase.CleanupSource?
               || r.phase.CleanupDestination?
      modifies `done, `failed, `log
      ensures Holds(r) && (ok ==> PhaseOp(r) in done) && old(failed) <= failed
      ensures calm ==> failed == old(failed) && (ok || Jammed(Snap()))
    {
      var t := PhaseOp(r);
      var arrives := Arrives();
      if !arrives { return false; }
      if t !in done {
        var refuses := Refuses(r, t);
        if refuses { return false; }
        Runs.Extend(MACHINE, log, Perform);
        done := done + {t};
        log := log + [Perform];
      }
      ok := Arrives();
    }

    /** The source prepares its export and answers with the plan, a repeated one with the same. */
    method ExportRemotely(r: Record, offer: Plan) returns (plan: Option<Plan>)
      requires Holds(r) && r.phase.SourcePrepare? && r.plan.None? && Honest(offer.files)
      requires PhaseOp(r) in done <==> r.transferId in exported
      modifies `exported, `done, `failed, `log
      ensures Holds(r) && old(failed) <= failed && PlanFor(Snap(), offer) == old(PlanFor(Snap(), offer))
      ensures plan.Some? ==> r.transferId in exported && exported[r.transferId] == plan.value
      ensures calm ==> failed == old(failed) && (plan.Some? || Jammed(Snap()))
    {
      var arrives := Arrives();
      if !arrives { return None; }
      if PhaseOp(r) !in done {
        var refuses := Refuses(r, PhaseOp(r));
        if refuses { return None; }
        ExportNow(r, offer);
      }
      var answered := Arrives();
      plan := if answered then Some(exported[r.transferId]) else None;
    }

    method ExportNow(r: Record, offer: Plan)
      requires Holds(r) && r.phase.SourcePrepare? && Honest(offer.files)
      requires PhaseOp(r) !in done && PhaseOp(r) !in failed
      modifies `exported, `done, `log
      ensures Holds(r) && exported == old(exported)[r.transferId := offer]
    {
      Runs.Extend(MACHINE, log, Export(offer));
      exported, done := exported[r.transferId := offer], done + {PhaseOp(r)};
      log := log + [Export(offer)];
    }

    /** The destination prepares for this transfer and answers with an empty plan bound to it;
        an answer with other bindings says nothing. */
    method AskDestination(r: Record) returns (plan: Option<Plan>)
      requires Holds(r) && r.phase.DestinationPrepare?
      modifies `done, `failed, `log
      ensures Holds(r) && old(failed) <= failed
      ensures plan == Some(NothingYet(r)) ==> PhaseOp(r) in done
      ensures calm ==> failed == old(failed) && (plan == Some(NothingYet(r)) || Jammed(Snap()))
    {
      var performed := PerformRemotely(r);
      var answer: Plan := *;
      plan := if performed then Some(NothingYet(r))
              else if !calm && answer != NothingYet(r) then Some(answer) else None;
    }

    /** The destination verifies, publishes and answers with its receipt; a receipt with other
        bindings says nothing. */
    method FinalizeRemotely(r: Record) returns (receipt: Option<Receipt>)
      requires Holds(r) && r.phase.Finalize? && r.plan.Some?
      requires r.finalizeId in receipts ==> receipts[r.finalizeId] == BoundReceipt(r)
      requires PhaseOp(r) in done ==> r.finalizeId in receipts
      modifies `published, `receipts, `done, `failed, `log
      ensures Holds(r) && old(failed) <= failed
      ensures receipt == Some(BoundReceipt(r)) ==>
                r.finalizeId in receipts && receipts[r.finalizeId] == receipt.value
      ensures calm ==> failed == old(failed) && (receipt == Some(BoundReceipt(r)) || Jammed(Snap()))
    {
      var t := PhaseOp(r);
      var other: Receipt := *;
      receipt := if other == BoundReceipt(r) then None else Some(other);
      var arrives := Arrives();
      if !arrives { return; }
      if t !in done {
        var refuses := Refuses(r, t);
        if refuses { return None; }
        PublishSnapshot(r);
      }
      var answered := Arrives();
      if answered { receipt := Some(receipts[r.finalizeId]); }
    }

    method PublishSnapshot(r: Record)
      requires Holds(r) && r.phase.Finalize? && r.plan.Some? && PhaseOp(r) !in done && PhaseOp(r) !in failed
      modifies `published, `receipts, `done, `log
      ensures Holds(r) && receipts == old(receipts)[r.finalizeId := BoundReceipt(r)]
    {
      Runs.Extend(MACHINE, log, Publish);
      published := published[r.transferId := Snapshot(r.plan.value, partial)];
      receipts, done := receipts[r.finalizeId := BoundReceipt(r)], done + {PhaseOp(r)};
      log := log + [Publish];
    }

    ghost method Exchanged(c: Copy, op: ChunkOp)
      requires Runs.IsRun(MACHINE, log) && CopyOf(Runs.After(MACHINE, log)) == Some(c) && OpEnabled(c, op)
      requires Runs.After(MACHINE, log).record.Some? && Runs.After(MACHINE, log).record.value.phase.Copying?
      requires op.Read? || WriteOp(c.cursor) !in Runs.After(MACHINE, log).failed
      modifies `log
      ensures Runs.IsRun(MACHINE, log)
      ensures Runs.After(MACHINE, log) == PutCopy(old(Runs.After(MACHINE, log)), ApplyOp(c, op))
    {
      Runs.Extend(MACHINE, log, Exchange(op));
      log := log + [Exchange(op)];
    }

    /** The source answers a read with any non-empty slice, and a repeated one with the same,
        as its export does not change; a chunk that is empty or has other bindings says nothing. */
    method ReadRemotely(r: Record, c: Copy) returns (chunk: Option<Chunk>)
      requires Holds(r) && r.phase.Copying? && CopyOf(Snap()) == Some(c) && ChunkInv(c)
      requires r.cursor == Some(c.cursor) && (ReadOp(c.cursor) in done <==> c.answer.Some?)
      modifies `answers, `done, `log
      ensures Holds(r)
      ensures CopyOf(Snap()) == Some(c.(answer := CopyOf(Snap()).value.answer))
      ensures chunk.Some? && !Foreign(r, c, chunk.value) ==>
                && CopyOf(Snap()) == Some(c.(answer := Some(chunk.value.bytes)))
                && Slice(c.file, c.cursor.offset, chunk.value.bytes)
      ensures calm ==> chunk.Some? && !Foreign(r, c, chunk.value)
    {
      var other: Chunk := *;
      chunk := if Foreign(r, c, other) then Some(other) else None;
      var arrives := Arrives();
      if !arrives { return; }
      if ReadOp(c.cursor) !in done { AnswerRead(r, c); }
      var answered := Arrives();
      if answered { chunk := Some(ChunkAt(r, c, answers[c.cursor.readId])); }
    }

    method AnswerRead(r: Record, c: Copy)
      requires Holds(r) && r.phase.Copying? && CopyOf(Snap()) == Some(c) && ChunkInv(c)
      requires r.cursor == Some(c.cursor) && c.answer.None?
      modifies `answers, `done, `log
      ensures Holds(r) && c.cursor.readId in answers
      ensures CopyOf(Snap()) == Some(c.(answer := Some(answers[c.cursor.readId])))
      ensures Slice(c.file, c.cursor.offset, answers[c.cursor.readId])
    {
      var content, offset := c.file.sha.bytes, c.cursor.offset;
      var chosen: nat := *;
      var slice := content[offset..offset + 1 + chosen % (|content| - offset)];
      Exchanged(c, Read(slice));
      answers := answers[c.cursor.readId := slice];
      done := done + {ReadOp(c.cursor)} + (if c.acked then {WriteOp(c.cursor)} else {});
    }

    /** The destination appends the chunk; interrupted, it may have only a part of it. */
    method WriteRemotely(r: Record, c: Copy) returns (ok: bool)
      requires Holds(r) && r.phase.Copying? && CopyOf(Snap()) == Some(c) && ChunkInv(c)
      requires r.cursor == Some(c.cursor) && c.answer.Some? && ReadOp(c.cursor) in done
      modifies `partial, `done, `failed, `log
      ensures Holds(r) && old(failed) <= failed
      ensures ok ==> CopyOf(Snap()).Some? && CopyOf(Snap()).value.acked
                     && CopyOf(Snap()).value == c.(here := CopyOf(Snap()).value.here, acked := true)
      ensures calm ==> failed == old(failed) && (ok || Jammed(Snap()))
    {
      var t := WriteOp(c.cursor);
      var arrives := Arrives();
      if !arrives { return false; }
      if t !in done {
        var refuses := Refuses(r, t);
        if refuses { return false; }
        ok := AppendChunk(r, c);
        if !ok { return; }
      }
      ok := Arrives();
    }

    method AppendChunk(r: Record, c: Copy) returns (whole: bool)
      requires Holds(r) && r.phase.Copying? && CopyOf(Snap()) == Some(c) && ChunkInv(c)
      requires r.cursor == Some(c.cursor) && c.answer.Some? && ReadOp(c.cursor) in done
      requires !c.acked && WriteOp(c.cursor) !in failed
      modifies `partial, `done, `log
      ensures Holds(r) && (calm ==> whole)
      ensures whole ==> CopyOf(Snap()) == Some(c.(here := CopyOf(Snap()).value.here, acked := true))
    {
      TargetAccepts(c);
      var result := WriteChunk(c.here, c.cursor.offset, c.answer.value).value;
      whole := Arrives();
      if whole {
        Exchanged(c, Write);
        partial := partial[c.file.path := result];
        done := done + {ReadOp(c.cursor)} + {WriteOp(c.cursor)};
      } else {
        var part: nat := *;
        var length := if Length(c.here) <= part <= |result| then part else Length(c.here);
        Exchanged(c, WritePart(length));
        partial := partial[c.file.path := result[..length]];
        done := done + {ReadOp(c.cursor)} + {};
      }
    }

    // ------------------------------------------------------------ coordinator

    method PrepareSource(r: Record, offer: Plan) returns (ok: bool)
      requires Holds(r) && r.phase.SourcePrepare? && Honest(offer.files)
      modifies `record, `nextId, `exported, `done, `failed, `log
      ensures Holds(if ok then r.(plan := Some(old(PlanFor(Snap(), offer))), phase := DestinationPrepare) else r)
      ensures PlanFor(Snap(), offer) == old(PlanFor(Snap(), offer))
      ensures ok ==> Progress(record.value, r, PlanFor(Snap(), offer)) && Unjammed(old(Jammed(Snap())))
      ensures calm ==> failed == old(failed)
      ensures calm && !ok ==> old(Jammed(Snap())) || !old(CanFinish(Snap(), offer))
    {
      RecordFacts(r);
      var plan := ExportRemotely(r, offer);
      if plan.None? { return false; }
      ok := Store(r, r.(plan := plan, phase := DestinationPrepare), StorePlan(plan.value));
    }

    /** The record was free before and is free now. */
    ghost predicate Unjammed(was: bool) reads this { !was && !Jammed(Snap()) }

    /** What a turn in a phase with a stored plan achieves. */
    ghost predicate Moved(r: Record) reads this {
      && Valid() && record.Some? && r.plan.Some? && record.value.plan.Some?
      && Nearer(record.value, r) && SameTransfer(record.value, r)
    }

    method PrepareDestination(r: Record) returns (ok: bool)
      requires Holds(r) && r.phase.DestinationPrepare?
      modifies `record, `nextId, `done, `failed, `log
      ensures if ok then Moved(r) && Unjammed(old(Jammed(Snap()))) else Holds(r)
      ensures calm ==> failed == old(failed)
      ensures calm && !ok ==> old(Jammed(Snap())) || HasEmptyFile(r)
    {
      RecordFacts(r);
      var plan := AskDestination(r);
      if plan.None? || !DestinationPlanMatches(r, plan.value) { return false; }
      ok := Store(r, WithCursor(r, 0, 0, nextId), StorePhase);
    }

    /** Reads the chunk at the cursor and has it written. */
    method MoveChunk(r: Record) returns (consumed: Option<nat>)
      requires Holds(r) && r.phase.Copying?
      modifies `answers, `partial, `done, `failed, `log
      ensures Holds(r) && old(failed) <= failed
      ensures calm ==> failed == old(failed) && (consumed.Some? || Jammed(Snap()))
      ensures consumed.Some? ==>
                && consumed.value > 0 && CopyOf(Snap()).Some? && CopyOf(Snap()).value.acked
                && CopyOf(Snap()).value.answer.Some? && |CopyOf(Snap()).value.answer.value| == consumed.value
    {
      RecordFacts(r);
      var c := CopyOf(Snap()).value;
      var chunk := ReadRemotely(r, c);
      if chunk.None? || !ChunkMatches(r, c, chunk.value) { return None; }
      RecordFacts(r);
      var ok := WriteRemotely(r, c.(answer := Some(chunk.value.bytes)));
      consumed := if ok then Some(|chunk.value.bytes|) else None;
    }

    /** `copy_one_backup_chunk`: the cursor moves on only after the write is acknowledged. */
    method CopyOneChunk(r: Record) returns (ok: bool)
      requires Holds(r) && r.phase.Copying?
      modifies `record, `nextId, `answers, `partial, `done, `failed, `log
      ensures if ok then Moved(r) && Unjammed(old(Jammed(Snap()))) else Holds(r)
      ensures calm ==> failed == old(failed)
      ensures calm && !ok ==> old(Jammed(Snap())) || HasEmptyFile(r)
    {
      RecordFacts(r);
      var consumed := MoveChunk(r);
      if consumed.None? { return false; }
      var next := Advanced(r, consumed.value, nextId);
      AdvancedIsNearer(r, consumed.value, nextId);
      ok := Store(r, next, StoreCursor);
    }

    method FinishImport(r: Record) returns (ok: bool)
      requires Holds(r) && r.phase.Finalize?
      modifies `record, `nextId, `published, `receipts, `done, `failed, `log
      ensures ok ==> record == Some(r.(receipt := Some(BoundReceipt(r)), phase := RecordSourceReceipt))
      ensures if ok then Moved(r) && Unjammed(old(Jammed(Snap()))) else Holds(r)
      ensures calm ==> failed == old(failed)
      ensures calm && !ok ==> old(Jammed(Snap()))
    {
      RecordFacts(r);
      var receipt := FinalizeRemotely(r);
      RecordFacts(r);
      if receipt.None? || !ReceiptBound(r, receipt.value) { return false; }
      ok := Store(r, r.(receipt := receipt, phase := RecordSourceReceipt), StorePhase);
    }

    method NextCleanup(r: Record) returns (ok: bool)
      requires Holds(r) && (r.phase.RecordSourceReceipt? || r.phase.CleanupSource?)
      modifies `record, `nextId, `done, `failed, `log
      ensures ok ==> record == Some(AfterPhase(r, 0, NO_RECEIPT))
      ensures if ok then Moved(r) && Unjammed(old(Jammed(Snap()))) else Holds(r)
      ensures calm ==> failed == old(failed)
      ensures calm && !ok ==> old(Jammed(Snap()))
    {
      RecordFacts(r);
      ok := PerformRemotely(r);
      if ok {
        ok := Store(r, AfterPhase(r, 0, NO_RECEIPT), StorePhase);
      }
    }

    method FinishTransfer(r: Record) returns (ok: bool)
      requires Holds(r) && r.phase.CleanupDestination?
      modifies `record, `done, `failed, `log
      ensures Valid() && record == (if ok then None else Some(r))
      ensures ok ==> !old(Jammed(Snap())) && AllDone(done, r)
      ensures calm && !ok ==> old(Jammed(Snap()))
    {
      ok := PerformRemotely(r);
      ForgottenWhenDone(log);
      if ok {
        ok := Clear(r);
      }
    }

    /** One turn of the loop in a phase that leaves a record behind. */
    method Turn(r: Record, offer: Plan) returns (ok: bool)
      requires Holds(r) && !r.phase.CleanupDestination? && Honest(offer.files)
      modifies this
      ensures Valid() && record.Some? && PlanFor(Snap(), offer) == old(PlanFor(Snap(), offer))
      ensures if ok then Progress(record.value, r, PlanFor(Snap(), offer)) else record == Some(r)
      ensures ok ==> Unjammed(old(Jammed(Snap())))
      ensures calm && !ok ==> old(Jammed(Snap())) || !old(CanFinish(Snap(), offer))
    {
      ghost var before := Snap();
      if HasEmptyFile(r) { EmptyFileEndsIt(before, offer); }
      match r.phase {
        case SourcePrepare => ok := PrepareSource(r, offer);
        case DestinationPrepare => ok := PrepareDestination(r);
        case Copying => ok := CopyOneChunk(r);
        case Finalize => ok := FinishImport(r);
        case RecordSourceReceipt => ok := NextCleanup(r);
        case CleanupSource => ok := NextCleanup(r);
      }
    }

    /** The last turn: what is returned was published from exactly the planned files. */
    method LastTurn(r: Record) returns (receipt: Option<Receipt>)
      requires Holds(r) && r.phase.CleanupDestination?
      modifies `record, `done, `failed, `log
      ensures Valid() && (calm ==> (receipt.Some? <==> !old(Jammed(Snap()))))
      ensures receipt.None? ==> record == Some(r)
      ensures receipt.Some? ==>
                && record.None? && r.plan.Some? && !HasEmptyFile(r) && r.transferId in published && AllDone(done, r)
                && SameFiles(published[r.transferId].files, r.plan.value.files)
                && receipt.value == BoundReceipt(r)
    {
      RunKeepsInv(log);
      assert RecordInv(Snap(), r);
      var ok := FinishTransfer(r);
      receipt := if ok then r.receipt else None;
    }

    /** `resume_backup_transfer`. It terminates whatever is lost on the way; when nothing is, it
        completes exactly when the plan can be stored, has no empty file, and no target has
        journaled a failure of what is needed now; and a completed copy published the planned
        files byte for byte and left neither end without its receipt or its cleanup. */
    method ResumeBackupTransfer(offer: Plan) returns (receipt: Option<Receipt>)
      requires Valid() && record.Some? && Honest(offer.files)
      modifies this
      ensures Valid()
      ensures receipt.Some? ==>
                var r, plan := old(record).value, old(PlanFor(Snap(), offer));
                && record.None? && old(CanFinish(Snap(), offer))
                && r.transferId in published && AllDone(done, r)
                && SameFiles(published[r.transferId].files, plan.files)
                && receipt.value == Receipt(r.deployment, r.source, r.destination, plan.manifest)
      ensures receipt.None? ==> record.Some? && SameTransfer(record.value, old(record).value)
      ensures calm ==> (receipt.Some? <==> old(CanFinish(Snap(), offer)) && !old(Jammed(Snap())))
    {
      ghost var first, plan := record.value, PlanFor(Snap(), offer);
      RecordFacts(first);
      ghost var jammed, finishes := Jammed(Snap()), CanFinish(Snap(), offer);
      while !record.value.phase.CleanupDestination?
        invariant Valid() && record.Some? && SameTransfer(record.value, first)
        invariant first.plan.None? && record.value.plan.Some? ==> ValidPlan(first, plan)
        invariant PlanFor(Snap(), offer) == plan
        invariant calm ==> Jammed(Snap()) == jammed
        invariant calm ==> CanFinish(Snap(), offer) == finishes
        decreases PhasesLeft(record.value.phase), FilesLeft(record.value), BytesLeft(record.value)
      {
        var ok := Turn(record.value, offer);
        if !ok { return None; }
      }
      receipt := LastTurn(record.value);
    }

    /** `run_backup_copy`: an unfinished transfer is resumed only under the very bindings it
        was begun with, and otherwise left alone; no second one is begun beside it. */
    method RunBackupCopy(deployment: string, source: Host, destination: Host, offer: Plan)
      returns (receipt: Option<Receipt>)
      requires Valid() && Honest(offer.files)
      modifies this
      ensures Valid()
      ensures receipt.Some? ==>
                && source != destination && record.None?
                && receipt.value.deployment == deployment
                && receipt.value.source == source && receipt.value.destination == destination
      ensures old(record).Some? && !Bindings(old(record).value, deployment, source, destination) ==>
                receipt.None? && Snap() == old(Snap())
      ensures old(record).Some? && record.Some? ==> SameTransfer(record.value, old(record).value)
    {
      if source == destination { return None; }
      if record.None? {
        var io := Begin(deployment, source, destination);
        if !io.Done? { return None; }
      } else if !Bindings(record.value, deployment, source, destination) {
        return None;
      }
      receipt := ResumeBackupTransfer(offer);
    }
  }
}
