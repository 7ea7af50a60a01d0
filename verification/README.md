# Journaled transactions of nazoauthctl, verified

`nazoauthctl` performs long operations on hosts it may lose touch with at any moment: it
replaces TLS material, copies backups between hosts, replaces its own binary, drives signed
control operations, restores a deployment after a disaster, and installs new ones. Each of
these keeps a small durable record, performs an external effect, and must go on correctly
after a crash between any two of its writes.

Every one of them is modelled twice, and the two are tied together by proof.

- **A machine** (`*Model.dfy`): the durable state, one step for each durable write of any
  process, and what must hold for the step. `Runs.dfy` defines runs of such machines. A run
  may stop after any step, so a statement about every run is a statement about every point
  at which a process can be killed, and about every number of restarts. The theorems about
  runs are in `*Safety.dfy`.
- **A class** with the durable files as fields, and one method for each command and each of
  its stages. Each write may succeed, fail visibly, or be the last thing the process does.
  `Valid()` says that the files are what some run of the machine leaves, so a method that
  skipped a step or took one too early would not verify. Where other processes may run
  between two writes the method calls `Others`, of which callers know only its contract:
  anything may have changed but what the held locks protect. The constant `calm` stands for
  an environment without faults and rivals; contracts that mention it promise progress, and
  mostly say exactly how the command ends.

| transaction | files |
|---|---|
| TLS certificate apply and recover | `TlsModel`, `TlsSafety`, `TlsExpiry`, `TlsCertificates` |
| Controller self-update and rollback | `SelfUpdateModel`, `SelfUpdateSafety`, `SelfUpdate` |
| Control operations, dispatch and conformance | `DispatchModel`, `DispatchSafety`, `Dispatch` |
| Off-host backup copy | `TransferModel`, `TransferSafety`, `Transfer` |
| Disaster recovery | `RecoveryModel`, `RecoverySafety`, `Recovery` |
| Clean install | `InstallModel`, `InstallSafety`, `Install` |
| Lifecycle intents | `Intents` |
| Registry | `Registry` |
| Release verification and cache | `Release` |

Atomic file replacement is all or nothing, removing an absent file succeeds, and only this
tool changes its files. Digests are injective, so a digest carries what it was computed
from. Fresh UUIDs (section 5.7 of RFC 9562) are numbers from an increasing supply, a compact
JWS (section 7.1 of RFC 7515) is a key id, a payload and arbitrary signature bytes. Provider
commands, endpoint checks, candidate checks, clock readings and remote answers are
arbitrary; a command takes those that decide its outcome as parameters. A target answers a repeated operation id from its journal as far as the journal
holds a result for it: each machine says which answers leave one.

## Where the code does not do what it is meant to

The model follows the code, also where a comment beside it promises more. Each item has a
condition that tells exactly when it happens, and those about runs a concrete run as well.

- A TLS receipt is stamped after the last expiry check but must be stamped before the expiry
  to be loadable. An apply whose public check outlasts the transaction commits a receipt
  that closes its binding for good (`TlsExpiry.NextApplyCanStart`, `LateReceiptIsFinal`,
  `LateApplyHappens`).
- Self-update cannot recover from two kinds of states: a discard killed between its two
  removals, and an interrupted update to the bytes already installed. From every other
  reachable state one call suffices (`SelfUpdate.Controller.Recover`, `StuckEntry`).
- A process that prepared an operation before another process settled it can still send it
  while the slot holds a newer one (`DispatchSafety.SendsWhatIsHeld`, `StaleBegins`,
  `UndisturbedSendsAreHeld`, `StaleSendHappens`).
- The check that the two recovery journals agree can fail for good, if another command
  gives up the slot between the two loads after an ill-timed crash
  (`RecoverySafety.DisagreementBegins`, `DisagreementStays`, `DisagreementHappens`, and both
  directions for a caller in `Recovery.Controller.RunRecover`).
- A recovery killed between storing the deadline and settling its control operation
  completes later, but leaves the control slot occupied for ever
  (`RecoverySafety.DoomBegins`, `DoomStays`, `LeftBehindBegins`, `LeftBehindStays`,
  `SlotIsLeftBehind`, and what a caller can see beforehand in `Recovery.Controller.RunRecover`).
- The coordinator stores a backup plan with an empty file and can then never finish it
  (`TransferSafety.EmptyFileIsAccepted`, `EmptyFileBlocks`, and both directions in
  `Transfer.Coordinator.ResumeBackupTransfer`). The exporter beside it lists a database dump,
  an archive and the manifest, none of which is normally empty.
- A backup copy is meant to be retried exactly, but a target journals a failure of any of its
  operations but a read and repeats it for the same id, and the coordinator never uses another
  id in the same place. One such failure, as when there is no snapshot yet or a disk is full
  for a moment, stops the transfer for good, and no other can be begun for the deployment,
  unless the target's journal is compacted (`TransferSafety.JamBegins`, `JamStays`,
  `JamIsForGood`, `JamHappens`, and both directions in
  `Transfer.Coordinator.ResumeBackupTransfer`).
- A rollback intent is cleared on a refusal for want of privileges, which asks to resume the
  same operation id and leaves the target's line open. The id is lost; and as a resumed
  rollback checks its privileges again, it can be lost with the rollback half done
  (`Intents.PrivilegeRefusalForgets`, `ForgottenBegins`, `ForgottenForGood`,
  `HalfDoneIsForgotten`).
- A clean install clears its prepared journal on every failure but an unknown outcome, also
  where the target may still hold the deployment: on a rerun whose other credentials conflict
  or make the request unsound, on a refusal for want of privileges, and when a rollback did not reach what an attempt cut short
  had left (`InstallSafety.OrphanBegins`, `SameCredentialsNoOrphan`, `OrphanHappens`,
  `PrivilegeOrphanHappens`, `ResidueOrphanHappens`). In the second case only a line in the
  target's journal is forgotten (`PrivilegeRefusalLeavesALine`, `ALineStaysALine`).
- Creating the built-in local host overwrites a host registered under the same target id,
  which adding a host would refuse (`Registry.LocalHostDisplaces`).
- On receipts that lack their shape the conformance driver and dispatch leave different
  journals (`DispatchSafety.ConformanceAgrees`).

## Model

| member | source | states |
|---|---|---|
| `TlsSafety.CrashAtomicity` | src/tls.rs:604-854 | After any run of any number of applies and recovers, stopped anywhere: if a binding has nothing pending, its archive holds exactly revisions 1 to the current one, the link names the current receipt's generation, and the transaction that made the receipt is archived as committed |
| `TlsSafety.MaterialSurvives` | src/tls.rs:1393-1416 | No generation named by an archived receipt is ever removed or loses a file, and a link that points at a pending generation points at a whole one |
| `TlsSafety.LinkOwnership` | src/tls.rs:1719-1800 | Two bindings never use one activation link, whether through a pending transaction, a current receipt, or one of each |
| `TlsSafety.NoStrayLink` | src/tls.rs:1355-1376 | A link that exists belongs to some binding's pending transaction or current receipt; without either there is no link |
| `TlsSafety.NoStrayGeneration` | src/tls.rs:1393-1416 | A generation directory that exists is named by a pending transaction or by an archived receipt of the binding that claims its link; nothing is left behind |
| `TlsSafety.NewGenerationIsFree` | src/tls.rs:651-658 | The generation of a plan that may be journaled has no directory yet, whatever runs came before |
| `TlsSafety.OneCommitPoint` | src/tls.rs:1832-1843 | A single kind of write commits: receipts/<target>, the next revision without gaps, with this transaction's evidence; no other step changes any archive |
| `TlsSafety.ArchiveIsAppendOnly` | src/tls.rs:1832-1843 | An archived receipt is never rewritten or removed by anything that happens later |
| `TlsSafety.DecisionPoint` | src/tls.rs:802-844 | From every state a run can leave, recovery goes forward exactly when receipts/<target> exists and back otherwise; the refusals that mean foreign interference cannot occur; only proxy drift and an unreadable receipt can stop it |
| `TlsSafety.PendingStands` | src/tls.rs:1591-1606 | While the durable phase is before Activating the link is the previous one; once the target is archived the link is the target; nothing else is ever there |
| `TlsSafety.StepKeepsInv` | src/tls.rs:304-327 | Every durable write of every process keeps the invariant of every binding at once |
| `TlsSafety.ForeignStepFrame` | src/tls.rs:1649-1654 | A step of one binding cannot touch the directory of another, the link it owns, or a generation under that link |
| `TlsCertificates.LocksIsolate` | src/tls.rs:609-621 | What a command reads under its two locks is not changed by any step of a process holding other locks |
| `TlsCertificates.FenceIsLocked` | src/tls.rs:616-622 | No step of a process holding other locks changes whether another binding has a pending transaction on this link, so a check of the fence stays true until the journal is written |
| `TlsExpiry.NextApplyCanStart` | src/tls.rs:1061-1077 | After a commit, an apply with exactly this evidence through exactly this provider can start if and only if it keeps the activation link, the receipt was verified within its transaction's 15 minutes and before its certificate ended, and the source, the proxy, the provider configuration or the trust anchors differ from the committed ones |
| `TlsExpiry.LateReceiptIsFinal` | src/tls.rs:2006-2055 | A receipt verified later than that closes its binding: no later step of any process ever changes the binding's directory |
| `TlsExpiry.LateApplyHappens` | src/tls.rs:714-758 | A concrete first apply, never interrupted, whose public check takes sixteen minutes and which commits such a receipt |
| `TlsCertificates.TlsHost.Apply` | src/tls.rs:604-786 | It is refused if and only if a transaction is pending here or on the link elsewhere, the material is invalid, or it may not follow the current receipt, each refusal on its own ground and without a change, and as already current only when all four things it may renew are equal; applied means that every check passed before the transaction expired and that there is exactly one more revision with the requested material, live and whole, its receipt stamped when it was built; restored means link, current receipt and archive are as before; undisturbed, the provider's and the endpoint's answers and the clock alone decide which |
| `TlsCertificates.TlsHost.Recover` | src/tls.rs:788-854 | Rolled forward means the archived target is current, live and its transaction archived as committed; rolled back means the earlier link and an unchanged rest; it refuses exactly for an unreadable receipt and for a changed proxy under a committed target, and then changes nothing; undisturbed, it ends exactly as the archive and the earlier generation's answers decide |
| `TlsCertificates.TlsHost.PlanApply` | src/tls.rs:612-660 | Ready exactly when the checks pass, and then what is planned may be journaled even though other commands ran after the checks: no pending transaction here, none elsewhere on this link, link and receipt agree, the source is new, the revision is the next one and unused; each refusal has its ground |
| `TlsCertificates.TlsHost.CheckCurrent` | src/tls.rs:629-651 | Passes if and only if the new evidence may follow the current receipt; a taken archive slot or a receipt without its committed transaction cannot be met at all |
| `TlsCertificates.TlsHost.ProviderFenced` | src/tls.rs:1719-1800 | Tells exactly whether another binding has a pending transaction on this link, by a scan of all bindings |
| `TlsCertificates.TlsHost.StageGeneration` | src/tls.rs:1223-1282 | When it succeeds the generation has every file the evidence calls for, whatever other processes did between the writes |
| `TlsCertificates.TlsHost.GoLive` | src/tls.rs:705-727 | When it succeeds the provider reloaded, the endpoint served the leaf, the link names a whole new generation and the journal says so; when it fails memory is never behind the journal about activation; undisturbed it fails only by those two answers or the clock |
| `TlsCertificates.TlsHost.RollBack` | src/tls.rs:1314-1353 | When it succeeds the earlier link is back, the candidate is gone and the journal unchanged; it holds for an in-memory phase ahead of the durable one; undisturbed it succeeds unless an activation may have happened and the earlier generation does not come back |
| `TlsCertificates.TlsHost.RestorePrevious` | src/tls.rs:1355-1376 | When it succeeds the link is exactly the previous one |
| `TlsCertificates.TlsHost.RemoveInactiveGeneration` | src/tls.rs:1393-1416 | When it succeeds the generation directory is gone, and an active generation is never touched |
| `TlsCertificates.TlsHost.PersistReceipt` | src/tls.rs:1832-1843 | Archive first, current receipt second, and both or a prefix of that on failure; existing evidence is never replaced by other evidence |
| `TlsCertificates.TlsHost.Finalize` | src/tls.rs:1802-1816 | The outcome is archived before the journal goes; on failure the journal is still there |
| `SelfUpdateSafety.WayBackExists` | src/controller/self_update.rs:151-238 | While a journal exists the installed binary is its source or its target; an update that replaced the source has the source's bytes saved; a rollback has its target's bytes |
| `SelfUpdateSafety.AtRest` | src/controller/self_update.rs:680-743 | Without a journal the trusted digest is the installed one (or nothing was ever installed), the rollback record's bytes exist, and no candidate is left behind |
| `SelfUpdateSafety.TrustFloor` | src/controller/self_update.rs:316-352 | No step outside a rollback lowers the trusted version, and none changes the digest trusted under one version |
| `SelfUpdateSafety.Retirement` | src/controller/self_update.rs:681-723 | A journal is retired either with its target installed and trusted, or by discarding an update whose source is installed |
| `SelfUpdateSafety.DiscardUndoes` | src/controller/self_update.rs:696-723 | A discarded update leaves the installed binary, the trust record and the rollback record exactly as before it began, over every run in between |
| `SelfUpdateSafety.StuckEntry` | src/controller/self_update.rs:519-624 | A run becomes unrecoverable at two writes only: the removal of a candidate by discard, and the first journal of an update to the very bytes installed and never saved |
| `SelfUpdateSafety.CandidateCanBeLost` | src/controller/self_update.rs:696-723 | A concrete run into the first class: the candidate fails its check and the process dies between the two removals |
| `SelfUpdateSafety.NothingCanBeSaved` | src/controller/self_update.rs:519-624 | A concrete run into the second class: an update to the running release that dies after its first write |
| `SelfUpdate.Controller.Recover` | src/controller/self_update.rs:398-430 | One call retires the journal if and only if the state is not stuck, when nothing fails, and then the installed digest, the staged candidate and the candidate's checks decide between completion, discard, rejection and restoration; what is installed and trusted afterwards follows from the outcome; a discard changes neither; no candidate is committed that failed its check |
| `SelfUpdate.Controller.RecoverUninstalled` | src/controller/self_update.rs:519-586 | Progress is inferred from digests: it bails exactly on a lost candidate, and otherwise commits, restores or discards |
| `SelfUpdate.Controller.RecoverInstalled` | src/controller/self_update.rs:587-624 | An installed candidate is committed or the source is restored; it bails exactly when nothing was saved |
| `SelfUpdate.Controller.RestoreRejected` | src/controller/self_update.rs:492-513 | The source is installed and trusted again and the journal is gone |
| `SelfUpdate.Controller.RecoverRollback` | src/controller/self_update.rs:626-668 | From every reachable rollback journal the target is installed and trusted; it never bails |
| `SelfUpdate.Controller.Update` | src/controller/self_update.rs:151-238 | From rest it is refused if and only if the release is older than the trusted version, or has its version and other bytes, the running binary standing for a missing record; updated means both checks of the candidate passed, the release is installed and trusted, is no older than what was trusted, and the way back names the earlier bytes and version; a rejected candidate changes nothing; a candidate rejected after installation leaves the earlier bytes installed and trusted; undisturbed, the two checks alone decide which |
| `SelfUpdate.Controller.SelfRollback` | src/controller/self_update.rs:240-303 | The saved bytes are installed and trusted under their version and the rollback record stays; undisturbed from rest it succeeds exactly when there is a record; a missing or changed artifact cannot be met |
| `DispatchSafety.OneRequestPerId` | src/controller_identity/dispatch.rs:125-166 | All requests ever sent under one operation id, by any processes across crashes and key rotation, are one request with one hash and the same signed bytes |
| `DispatchSafety.WriteAhead` | src/controller_identity/journal.rs:203-243 | Before every send there was a moment at which the slot durably held exactly that request |
| `DispatchSafety.SendsWhatIsHeld` | src/controller_identity/dispatch.rs:125-166 | A request about to be sent is the held entry if and only if its own entry was not cleared meanwhile; if it was, its outcome is known |
| `DispatchSafety.StaleBegins` | src/controller_identity/dispatch.rs:401-429 | A process comes to be about to send what the slot no longer holds exactly when another one settles this very operation |
| `DispatchSafety.UndisturbedSendsAreHeld` | src/controller_identity/dispatch.rs:125-166 | In every run in which that never happens to a process, whatever it sends is the held entry |
| `DispatchSafety.StaleSendHappens` | src/controller_identity/dispatch.rs:125-166 | A concrete run in which a process is about to send one operation while the slot holds another |
| `DispatchSafety.OutcomesAreKept` | src/controller_identity/dispatch.rs:401-429 | A journaled operation is in the slot, or its result is durable, or it was definitively refused |
| `DispatchSafety.SlotIsNeverStolen` | src/controller_identity/journal.rs:248-284 | No step replaces a held entry or takes Accepted back to Dispatched; only a process with a durable result of this very operation, or with a refusal of it other than a conflict, removes it |
| `DispatchSafety.ResumeIsReplay` | src/controller_identity/dispatch.rs:192-221 | The slot is resumed by exactly the input that was journaled, whatever key is active, and gives back what was already sent under that id; a foreign payload under a matching hash cannot be met |
| `DispatchSafety.DispatchSettles` | src/controller_identity/dispatch.rs:318-429 | A dispatch persists a result if and only if the slot holds its request and the receipt carries the final result of exactly that request, a success only with data that its operation answers with; the slot is then empty; otherwise the entry goes exactly on a refusal for good and is marked accepted exactly when the request is under way |
| `DispatchSafety.ConformanceSettles` | src/conformance.rs:281-346 | The conformance driver persists exactly the same results; it marks every accepted entry and takes every refusal but a conflict as one for good |
| `DispatchSafety.ConformanceAgrees` | src/conformance.rs:281-346 | On a held, dispatched entry the two settlements leave the same slot and result, for persistence working and failing, if and only if the receipt satisfies a stated shape |
| `DispatchSafety.ConformanceRefinesDispatch` | src/conformance.rs:281-346 | On well-formed receipts they agree from every slot, also when the result cannot be persisted |
| `Dispatch.Instance.RecordDispatched` | src/controller_identity/journal.rs:203-243 | Either the entry is held durably by this process, or the slot is as it was |
| `Dispatch.Instance.MarkAcceptedIfMatches` | src/controller_identity/journal.rs:248-267 | Only the expected operation becomes Accepted; a refusal or failed write leaves the slot as it was |
| `Dispatch.Instance.ClearIfMatches` | src/controller_identity/journal.rs:271-284 | Only the expected operation is removed, and never without its refusal or its durable result |
| `Dispatch.Instance.Prepare` | src/controller_identity/dispatch.rs:125-166 | What is returned for sending is in the slot: the journaled bytes if there was an entry, a fresh id otherwise; a busy slot is left alone and only refuses other content |
| `Dispatch.Instance.PreparePending` | src/controller_identity/dispatch.rs:169-187 | Never signs; refuses exactly when the slot holds another identity than expected |
| `Dispatch.Instance.Execute` | src/controller_identity/dispatch.rs:60-101 | The request is sent exactly when change-set material is there if and only if tenant resources are applied |
| `Dispatch.Instance.DispatchAndSettle` | src/controller_identity/dispatch.rs:245-292 | What is persisted is the receipt's final result of exactly this request and is durable before the slot is cleared; undisturbed, slot and result are exactly those of the receipt, and the honest result of every kind of operation is persisted and its entry cleared |
| `Dispatch.Instance.Settle` | src/controller_identity/dispatch.rs:401-429 | As above for each verdict; OPERATION_ID_CONFLICT and an unknown outcome keep the entry |
| `Dispatch.Instance.CompleteControlOperation` | src/conformance.rs:281-346 | The same for the conformance driver's own order of writes: it marks first, reads the result afterwards, and persists and clears the honest result of every kind of operation |
| `TransferSafety.PrefixAtCursor` | src/controller/surface_run.rs:600-661 | During the copy all earlier files have arrived, no later one has begun, and the current one holds the source's bytes up to the cursor or within the one chunk beyond it |
| `TransferSafety.FinalizeMeansEqual` | src/controller/surface_run.rs:436-455 | From Finalize on the destination's tree is the planned files byte for byte, and nothing else |
| `TransferSafety.PublishedIsSource` | src/controller/surface_run.rs:436-455 | Whatever a destination has ever published for a transfer equals that transfer's plan byte for byte |
| `TransferSafety.FilesOnlyGrow` | src/target/backup_exec.rs:611-676 | Within one transfer every destination file only grows: no byte is written twice or taken back, also when the destination is interrupted inside a chunk |
| `TransferSafety.TargetAccepts` | src/target/backup_exec.rs:611-676 | The destination never refuses a chunk over a length or an overlap, and ends with exactly the source's prefix |
| `TransferSafety.IdsAreDurableFirst` | src/controller/transfer_journal.rs:90-97 | Every operation that ever reached a target, carried out or failed, was named by a stored record at an earlier moment |
| `TransferSafety.StoredRecordsLoad` | src/controller/transfer_journal.rs:176-266 | Every stored record passes validation on load: plan, cursor and receipt are there exactly in their phases and bound to this transfer, and the next offset never overflows 64 bits |
| `TransferSafety.EmptyFileBlocks` | src/controller/transfer_journal.rs:221-234 | A transfer whose plan has an empty file never gets past the file before it |
| `TransferSafety.EmptyFileIsAccepted` | src/controller/transfer_journal.rs:215-222 | A concrete run that stores a valid record whose plan has an empty file |
| `TransferSafety.NothingIsSkipped` | src/controller/surface_run.rs:398-499 | A record reaches a phase only after the targets have carried out every operation of the phases before it, each on its own side |
| `TransferSafety.ForgottenWhenDone` | src/controller/surface_run.rs:480-497 | A transfer may be forgotten exactly when it is at its last phase and both preparations, the finalization, the source's receipt and both cleanups were carried out |
| `TransferSafety.JamBegins` | src/target/journal.rs:288-316 | A record becomes unable to move on exactly when a target journals a failure of the operation that the record needs now; no other step does it, and a record that moves on is free |
| `TransferSafety.JamStays` | src/target/journal.rs:361-390 | No step of any process or target moves such a record, except that the target's journal drops the failed line |
| `TransferSafety.JamIsForGood` | src/target/journal.rs:361-390 | Over every extension of a run in which no journal drops a failed line, such a record stays exactly where it is |
| `TransferSafety.JamHappens` | src/target/backup_exec.rs:443-451 | A concrete run: a copy asked for before there is a snapshot can never be completed afterwards |
| `Transfer.AdvancedIsNearer` | src/controller/surface_run.rs:644-660 | Moving the cursor is progress in phases, files and bytes, and yields a storable record exactly when the file under it is not empty |
| `Transfer.Coordinator.ResumeBackupTransfer` | src/controller/surface_run.rs:388-499 | Terminates whatever is lost; a returned receipt names this transfer's deployment, hosts and manifest, and means that the planned files were published byte for byte, that the source has its receipt, that both ends were cleaned up and that the record is gone; when nothing fails it completes if and only if the plan is bound to this transfer and has files but no empty one, and no target has journaled a failure of what the record needs now |
| `Transfer.Coordinator.RunBackupCopy` | src/controller/surface_run.rs:266-335 | An unfinished transfer is only resumed under its own deployment and hosts and is otherwise left untouched; a returned receipt names exactly the asked deployment and hosts |
| `Transfer.Coordinator.ReadRemotely` | src/controller/surface_run.rs:617-635 | A chunk that is about this request is the source's non-empty slice of this file at this offset; when nothing fails there is one |
| `Transfer.Coordinator.CopyOneChunk` | src/controller/surface_run.rs:600-661 | Succeeding brings the loop nearer its end within the same transfer, failing leaves the record; when nothing new fails it fails only because of an empty file or a write failure journaled before |
| `Transfer.Coordinator.Store` | src/controller/transfer_journal.rs:139-146 | Stores the record exactly when it validates and the write succeeds, and otherwise keeps the previous one |
| `Transfer.Coordinator.WriteRemotely` | src/target/backup_exec.rs:611-676 | An acknowledged write is journaled with the whole chunk; without an acknowledgement any beginning of it may be there; a failure is journaled and repeated, so that only a write not failed before can be acknowledged |
| `Transfer.Coordinator.Refuses` | src/target/journal.rs:288-390 | A target refuses what it has not completed exactly if it has the failure in its journal, from now on or from before |
| `Transfer.Coordinator.ExportRemotely` | src/controller/surface_run.rs:400-421 | The plan that arrives is the one the source exported under this transfer's id, the same on every repetition; when nothing fails it arrives unless a failure was journaled |
| `Transfer.Coordinator.FinishImport` | src/controller/surface_run.rs:436-455 | Only a receipt bound to this transfer is stored |
| `RecoverySafety.ActivationsAreGated` | src/controller/surface_run.rs:1113-1156 | Every activation ever sent followed a successful invalidation of its plan's epoch, after the deadline that invalidation set |
| `RecoverySafety.DeadlineIsDurable` | src/controller/surface_run.rs:1094-1143 | When an activation is sent, the success it relies on and its own id are already in the stored plan |
| `RecoverySafety.EpochIsFixed` | src/controller/surface_run.rs:753-801 | No step, a change of version included, moves a plan to another epoch, recovery or snapshot, or takes back the restored revision |
| `RecoverySafety.StoredPlansLoad` | src/controller/recovery_journal.rs:139-201 | Every plan a run leaves on disk passes validation on load |
| `RecoverySafety.WrapperNamesOneOperation` | src/controller/surface_run.rs:941-970 | A wrapper id is only ever sent with one signed operation to one candidate |
| `RecoverySafety.DisagreementBegins` | src/controller/surface_run.rs:900-940 | Signing makes the two journals disagree if and only if the plan is still bound, which takes a slot seen occupied at the first load and empty at the second |
| `RecoverySafety.DisagreementStays` | src/controller/surface_run.rs:937-940 | From then on every step keeps the disagreement, except a request for another version |
| `RecoverySafety.AgreeWithoutOthers` | src/controller/surface_run.rs:900-940 | In every run in which no other command gives up the slot, the journals never disagree |
| `RecoverySafety.DisagreementHappens` | src/controller/surface_run.rs:974-1000 | A concrete run into the disagreement, through a crash between settling and unbinding |
| `RecoverySafety.DoomBegins` | src/controller/surface_run.rs:1098-1108 | A recovery is doomed to leave the control slot occupied if and only if its process dies after it stored the deadline and before it settled |
| `RecoverySafety.DoomStays` | src/controller/surface_run.rs:1113-1195 | No later step of any process changes that, except a request for another version; the step that finishes the doomed recovery leaves the slot behind |
| `RecoverySafety.LeftBehindBegins` | src/controller/surface_run.rs:1157-1195 | A slot is left behind by the end of a doomed recovery and in no other way |
| `RecoverySafety.NothingLeftBehind` | src/controller/surface_run.rs:1098-1108 | In every run in which no process dies at that one point, no slot is ever left behind |
| `RecoverySafety.LeftBehindStays` | src/controller_identity/dispatch.rs:134-154 | A slot left behind so is never emptied by any later step |
| `RecoverySafety.SlotIsLeftBehind` | src/controller/surface_run.rs:1098-1107 | A concrete run: the process dies between storing the deadline and settling |
| `Recovery.Controller.RunRecover` | src/controller/surface_run.rs:720-1202 | Completion implies a gated activation of the plan's own epoch and an acknowledged cleanup; once the two journals disagree, no run for the same version gets further or changes plan or slot, and only then does an undisturbed one bail over them; a refusal, a failed result and a missing result each leave plan and slot as the answer demands, and are only reported if the target said so; undisturbed, the place of the plan and the answers alone decide the outcome, and a completed recovery leaves an invalidation in the control slot if and only if it found the answer stored, was asked for no other version, and found the slot so occupied |
| `Recovery.Controller.InvalidateSessions` | src/controller/surface_run.rs:888-1109 | The answers decide, one after the other: new keys while the controller's is unknown, then the deadline of this epoch or the end; a plain refusal or a failure unbinds the plan and empties the slot, a conflict unbinds the plan and keeps the slot, no final answer keeps both |
| `Recovery.Controller.React` | src/controller/surface_run.rs:974-1108 | Where one answer leads and what it leaves in plan and slot |
| `Recovery.Controller.BindInvalidation` | src/controller/surface_run.rs:900-940 | Binding ends with plan and slot naming the same invalidation; it bails only in a disagreement, and in a disagreement it always stops and changes nothing |
| `Recovery.Controller.RecoverIdentity` | src/controller/surface_run.rs:974-1040 | Looping means the plan is unbound, so a new key signs a new operation |
| `Recovery.Controller.AcceptDeadline` | src/controller/surface_run.rs:1094-1108 | The deadline is stored before the slot is emptied |
| `Recovery.Controller.AwaitDeadline` | src/controller/surface_run.rs:1111-1124 | Ends with a reading strictly past the deadline, and without one exactly when no reading is |
| `Recovery.Controller.ActivateAfterDeadline` | src/controller/surface_run.rs:1113-1156 | An activation is sent at a clock reading strictly after the deadline |
| `Recovery.Controller.ChangeVersion` | src/controller/surface_run.rs:753-801 | Epoch and restored revision survive a change of version, everything of the old candidate does not |
| `InstallSafety.OrphanBegins` | src/clean_install/mod.rs:1113-1124 | A deployment is orphaned if and only if a prepared journal is cleared on one of four answers: a conflict, or the refusal of an unsound request, over an operation the target has not undone; a refusal for want of privileges; or a failure whose rollback did not reach what an earlier attempt, cut short, had left |
| `InstallSafety.ConflictIsOverCredentials` | src/target/journal.rs:266-280 | A journal cleared on a conflict, or on an unsound request after the target accepted one: the refused operation differs from the accepted one in its credentials and in nothing else |
| `InstallSafety.NoOrphans` | src/clean_install/mod.rs:1014-1139 | In every run without such a clear, each deployment a target may hold is registered or named by a prepared journal |
| `InstallSafety.SameCredentialsNoOrphan` | src/clean_install/mod.rs:1014-1139 | Reruns with the same credentials, with any lost requests and answers, controller crashes and ordinary failures, orphan nothing, provided that no attempt is cut short at the target and none is refused for want of privileges |
| `InstallSafety.OrphanHappens` | src/target/journal.rs:266-280 | For both codes a concrete run: applied, answer lost, rerun with a password that is another one or makes the request unsound |
| `InstallSafety.PrivilegeOrphanHappens` | src/target/journal.rs:357-373 | A concrete run: one attempt, one set of credentials, a refusal that leaves the target's line pending |
| `InstallSafety.ResidueOrphanHappens` | src/target/install_exec.rs:1865-1915 | A concrete run: the target dies over the first attempt, the second one fails early with the same credentials and undoes only its own |
| `InstallSafety.PrivilegeRefusalLeavesALine` | src/target/journal.rs:357-373 | A journal cleared on a refusal for want of privileges forgets a pending line and nothing else, if and only if no earlier attempt left something |
| `InstallSafety.ALineStaysALine` | src/target/journal.rs:357-373 | After that the target never comes to hold anything of the deployment |
| `InstallSafety.RetriesKeepIdentity` | src/clean_install/mod.rs:1017-1068 | Everything sent under one operation id or for one deployment has one plan: deployment, operation, epoch and runtime |
| `InstallSafety.PlanStays` | src/clean_install/install_journal.rs:106-152 | A prepared plan is unchanged until its own journal is cleared |
| `Install.Installer.RunCleanInstall` | src/clean_install/mod.rs:994-1140 | A rerun keeps the stored plan; the plan outlives every outcome but a registration and the target's own definite refusal; refusals before the send send nothing; undisturbed, the journals, the registry, the inspection and what becomes of the request at the target decide the outcome |
| `Install.Installer.ExecuteAndRegister` | src/clean_install/mod.rs:1112-1143 | Installed means registered under this plan's host and issuer and the journal gone; failed means the journal is gone on an answer other than an unknown outcome; an unknown outcome or a refused registration keeps it |
| `Install.Installer.ExecuteInstall` | src/target/journal.rs:247-402 | An answer that arrives is one the target may give, and exactly the one its journal and the attempt lead to: the stored result for a finished operation, a refusal of what is not accepted yet as unsound, a conflict for another operation under the id, and otherwise what the new attempt ends with, terminal line or not |
| `Install.Installer.UndoInstall` | src/target/install_exec.rs:532-546 | A failed attempt is answered by an ordinary failure with a terminal line, by a refusal without one, or as unknown when its rollback is incomplete; nothing of it goes on running, and residue is left exactly by an incomplete rollback or one that did not reach it |
| `Install.Installer.ObtainPlan` | src/clean_install/mod.rs:1013-1069 | A stored plan is reused as it is, or refused exactly for another operating system or another runtime; only a request without one gets a new identity, durable before it is used, unless there is no runtime |
| `Install.Installer.CloseRegistered` | src/clean_install/mod.rs:1071-1083 | A registered deployment closes the journal only if registry and target agree with the request |
| `Intents.AtMostOneIntent` | src/instance_lifecycle/mod.rs:32-69 | Under any interleaving a deployment has at most one of the update, rollback and backup intents |
| `Intents.SendsTheIntent` | src/instance_lifecycle/rollback.rs:33-66 | What is sent is the stored intent, and one id is one request |
| `Intents.SettledByItsOwn` | src/controller/surface_run.rs:236-258 | A request is settled by the completion of its own kind and by every failure but OPERATION_ID_CONFLICT, and by nothing else |
| `Intents.SlotsAreShared` | src/controller/surface_run.rs:213-235 | Snapshot and restore test share one intent; update and rollback have their own |
| `Intents.IntentsAreKept` | src/instance_lifecycle/rollback.rs:66-83 | A rollback or backup intent goes only after its process heard a settling answer to exactly it: the expected completion or a failure other than OPERATION_ID_CONFLICT; the target's journal then holds no line if the code is TARGET_JOURNAL_CAPACITY, an open line if it is PRIVILEGE_REQUIRED, and otherwise this very answer |
| `Intents.ForgottenBegins` | src/target/journal.rs:357-374 | A line becomes an open one that nobody will resume exactly when its intent is cleared while it is open and no request for it is |
| `Intents.PrivilegeRefusalForgets` | src/instance_lifecycle/rollback.rs:67-71 | Clearing a rollback or backup intent leaves its line open and forgotten if and only if the answer heard is PRIVILEGE_REQUIRED, whose text asks to resume the same operation id |
| `Intents.ForgottenForGood` | src/target/journal.rs:282-316 | Over every extension of the run a forgotten line stays open, and what its operation had begun stays as it is |
| `Intents.HalfDoneIsForgotten` | src/target/update_exec.rs:733-741 | A concrete run: the target dies over a rollback it has begun, the rerun is refused for want of privileges, and the intent is gone |
| `Intents.Host.OpenIntent` | src/instance_lifecycle/mod.rs:32-69 | Opens exactly when no uninstall and no other action is pending, and names the obstacle |
| `Intents.Host.RunAction` | src/controller/surface_run.rs:213-261 | A pending operation of the same kind is sent as it was stored and is gone afterwards only on a settling answer, whose code tells whether its line is closed, open or absent; one of another kind is left alone; undisturbed, intents, journal and the target's answer decide the outcome |
| `Intents.Host.Finish` | src/instance_lifecycle/rollback.rs:66-83 | Finished exactly with a settling answer, recorded at the target as its code says and forgotten if and only if it is PRIVILEGE_REQUIRED; every other outcome keeps the intent; undisturbed, the answer is the stored one or the target's, and settles as its kind says |
| `Intents.Host.ExecuteIntent` | src/target/journal.rs:247-402 | The stored intent is sent; the answer is one the target's journal allows, and a stored result is repeated unless the request conflicts |
| `Intents.Host.CarryOut` | src/target/journal.rs:357-390 | An attempt either is refused for want of privileges and changes nothing, or closes the line with its own result, or is cut short and leaves it open |
| `Registry.Store.ForgetHost` | src/registry.rs:803-845 | Removes the host and exactly its instances; cut short anywhere it has removed only such instances, and the registry is still consistent |
| `Registry.HostRemovable` | src/registry.rs:803-845 | Removing a host file keeps every reference resolvable if and only if no instance refers to it |
| `Registry.FewerInstances` | src/registry.rs:837-842 | Whichever instance removals a crash spares, the registry stays consistent |
| `Registry.ScanAgreesWithLookup` | src/registry.rs:1018-1142 | In any directory all of whose files conform to their names, a record is in some file if and only if the lookup by its id reads it |
| `Registry.KeysArePlain` | src/registry.rs:491-510 | A key has 1 to 128 characters of the ASCII letters, digits and .:_+-, does not begin with a hyphen and is no directory |
| `Registry.LocalAliasIsReserved` | src/registry.rs:184-209 | The local host, and no other, has the reserved alias and lacks a profile |
| `Registry.InstancesAreSound` | src/registry.rs:266-325 | An instance's names are keys and a required backup may be at most 365 days old |
| `Registry.Store.LoadInstances` | src/registry.rs:1018-1045 | For any directory: the scan succeeds if and only if every file holds a valid record of the id it is named after, and then finds exactly the records that lookups by id find |
| `Registry.LocalHostDisplaces` | src/registry.rs:592-600 | Creating the built-in host loses a registration if and only if a host of that id was registered; its alias then no longer resolves |
| `Registry.Store.EnsureLocalHost` | src/registry.rs:592-600 | The built-in host is there afterwards; another record is overwritten exactly when it has the local target's id |
| `Registry.Store.AddHost` | src/registry.rs:603-615 | Without faults it adds exactly the valid records whose id and alias are both new, and it never loses one |
| `Registry.Store.RegisterInstance` | src/registry.rs:753-796 | A new, unambiguous instance bound to a known host matching the evidence; anything else changes nothing |
| `Registry.Store.RenameInstance` | src/registry.rs:662-682 | Only the selector changes and stays unambiguous |
| `Registry.Store.RelocateInstance` | src/registry.rs:948-972 | Only to another known host, and the old host's observation is dropped |
| `Registry.Store.ResolveInstance` | src/registry.rs:710-724 | A deployment id wins over an alias of the same spelling, and a refusal means neither exists |
| `Registry.Store.HostByAlias` | src/registry.rs:986-991 | The scan finds the host of that alias if there is one |
| `Registry.Store.InstanceByAlias` | src/registry.rs:1005-1010 | The scan finds the instance of that alias if there is one |
| `Registry.Store.ForgetInstance` | src/registry.rs:849-860 | Exactly this record goes, or nothing |
| `Release.Workspace.VerifiedCandidate` | src/release.rs:315-405 | A returned manifest binds digest and size of the bytes left in the workspace; the cache gains only such bytes, loses an entry only when the authority was reached and it rejected the bytes or a local write of the verification failed, and is otherwise untouched; undisturbed, a manifest is returned exactly if the cached bytes pass, or a fresh download passes where nothing was cached or the cached bytes were rejected |
| `Release.VerifiedManifest` | src/release.rs:543-596 | Returns m exactly when no attestation fails, at least one matches and all that match equal m |
| `Release.OrderIsIrrelevant` | src/release.rs:543-596 | Acceptance and the manifest do not depend on the order of the attestations |
| `Release.AcceptedIsBound` | src/release.rs:543-612 | An accepted manifest is unique, lawful, for the asked version and signer, and declares the checked bytes |
| `Release.OneMore` | src/release.rs:569-580 | One more skipped attestation changes nothing; one more failing one refuses everything |
| `Release.AcceptsExactly` | src/release.rs:543-612 | A manifest is accepted if and only if there are attestations within the limit, one vouches for it (signed, sound, about these bytes under this name, for this version and identity, with a lawful manifest whose first artifact of the name has this digest and size), and every other one vouches for it too or is about something else |
| `Release.FindArtifact` | src/release.rs:577-583 | Finds an artifact of the name, if the manifest declares one |

## Left out

- TlsSafety.CrashAtomicity: the provider snapshot digest and the declaration revision are not modelled, so the refusals they cause are not either; they are part of the arbitrary validity checks.
- TlsCertificates.TlsHost.StageGeneration: a file is present or absent; contents, modes and ownership are not modelled, and temporary files left by a crash are ignored.
- TlsCertificates.TlsHost.ProviderFenced: does not model the limits of 1024 deployments and 4096 bindings, beyond which the source refuses.
- TlsCertificates.TlsHost.Apply: the `last_error` text of a transaction is not modelled.
- TlsModel: the revision in a generation name distinguishes it from every committed one; the first eight digits of the transaction id are kept beside it as a coarse time stamp.
- SelfUpdate.Controller.Recover: the installed binary is never absent, as nothing in the tool removes it; the branch for an absent binary is not modelled. Evidence files, schemas and path checks are not either.
- SelfUpdate.Controller.Update: the search for a newer release and its verification come before and are a given release here.
- Dispatch.Instance.ClearIfMatches: the unconditional `clear` used by the update command for a no-op is not modelled, as that command is not.
- DispatchSafety.OutcomesAreKept: the update command is not part of this model; it records an operation it issued before again into an empty slot, and clears the slot unconditionally after a no-op (src/instance_lifecycle/update.rs:198-206 and 280). The server is not modelled either, so a refusal is final because the client treats it so.
- DispatchSafety.SendsWhatIsHeld: does not cover the update command's recording of an already cleared id, for the same reason.
- DispatchSafety.UndisturbedSendsAreHeld: does not cover either of the update command's two writes, for the same reason.
- DispatchSafety.StaleBegins: does not cover them either.
- DispatchSafety.SlotIsNeverStolen: does not cover the update command's unconditional clear, for the same reason.
- Transfer.Coordinator.ResumeBackupTransfer: the source is taken to describe and serve its own files truthfully, with distinct names, though an answer may carry wrong bindings; so may the destination's. String formats of identifiers are not modelled.
- TransferSafety.JamBegins: a failure that is not journaled, among them a refusal for want of room in the journal and any failed read, counts as an answer that got lost. The compaction of completed lines is not modelled: an operation whose line is gone is carried out again.
- Transfer.Coordinator.Store: the 64 KiB bound of the record is not modelled.
- Recovery.Controller.RunRecover: the interactive recovery of a controller identity is one arbitrary step; the schema-1 reader is a matter of JSON and is left out; acceptance marks on the control slot are in the dispatch model only.
- Recovery.Controller.ActivateAfterDeadline: sleeping is a sequence of clock readings; a process that runs out of them was killed.
- Install.Installer.RunCleanInstall: configuration rendering, ports, paths, secrets and the rules for choosing a runtime are a given plan; compaction of the target's journal is not modelled.
- Install.Installer.ExecuteInstall: the requests of one install reach the target in order; none arrives, and none is still being carried out, after a later one was answered.
- InstallSafety.OrphanBegins: what an attempt puts on the target is one fact, present or not; its parts are not told apart.
- InstallSafety.NoOrphans: forgetting a registered instance is not an orphan in this sense and is not a step of this machine.
- Intents.IntentsAreKept: the requests for one operation reach the target in order, as for an install, and compaction of the target's journal is not modelled. A conflict over a stored intent is always possible here.
- Intents.HalfDoneIsForgotten: what a rollback does at the target is one fact, begun or not.
- Intents.Host.RunAction: the update and uninstall commands have rules of their own for clearing; an update intent may be cleared at any time here, and the uninstall marker comes and goes freely.
- Registry.Store.RegisterInstance: issuer and OIDF strings are taken as validated; observation, controller-binding and policy updates that rewrite one field of one record are left out as easy members.
- Release.Workspace.VerifiedCandidate: a process killed in the middle of its verification may also count as one whose write failed, so an entry may be dropped more often here than in the source.
- Release.VerifiedManifest: decoding of bundles is part of an attestation's given verdicts; the manifest's own policy is one truth value.
- Controller identity stores, key generation, the admin API, SSH, HTTP, ACME, proxy configuration, X.509, command-line parsing and messages are not part of this model.
