# Delivery, recovery and activation of the Rez chat runtime: a Dafny model

This project models the parts of the chat runtime that have to survive crashes, and proves what they promise.

* **Inbound delivery.** A home node keeps a log of deposits and a device cursor; live pushes and catch-up drains feed one
  serialised queue; plaintext is staged and applied, and only then may the cursor move or a relay copy be deleted.
  `InboundProtocol` is a step system with one function per await: every storage, apply or network call may succeed, fail,
  or take effect and still throw (`Io = Done | Lost | Landed`), pushes, drains, sweeps and the bridge interleave freely,
  and a crash may fall at any step. `InboundSafety`, `QuarantineFloor` and `Redecryption` prove properties of every run.
  `CatchupDrain`, `DepositProcessing`, `RedrainClosure`, `ApplyOutbox`, `ProcessedLog` and `SerialQueue` are the same
  services as classes and loops, proved against their own specifications; `ProcessingRefinement` shows that the steps of
  one deposit, taken without interruption, are the class's method; `OutboxHistory` says what a history of torn outbox
  calls leaves.
* **Ceremony recovery.** `CeremonyJournal` and `CeremonyRecovery` are the registration journal and the recovery sweep as
  classes; the outcome a sweep owes at a clock reading is a function `Final`, which every partial sweep preserves for
  whatever was due by then, and lemmas say exactly which rows a later reading changes. `CeremonyRuns` lets a live
  ceremony and a sweep run between each other's awaits; `CeremonySafety` and `CeremonyStranding` say what a deleted row
  may leave behind, and exhibit the two runs in which a leaf is stranded; `CeremonySplit` cuts every journal call at its
  await.
* **Split-transport activation.** `ActivationJournal` and `PortableInbox` are the journal and the write-once portable
  inbox as classes. `ActivationJournalRuns` splits every journal call at its storage call, `PortableInboxRuns` runs any
  number of establishers over one storage, and `ActivationRuns` composes them: any number of calls of the verb, each with
  its own runtime, which stopping does not wait for. `ActivationSafety` proves what is ever published and what a return
  means; `ActivationLimits` and `ActivationOverlaps` exhibit the runs that show each condition is needed.
* **Two small concurrent machines.** `Coalescing` (one pass plus one dirty bit) and `IdleClose` (the account channel).
* **Exact identities.** `Base64`, `ControlCodec`, `SchemaCoercion`, `Identities`.

## What the proofs found

* A quarantine on the durable path forgets the deposit's marker after its own counting awaits
  (src/server/services/InboxCatchupService.js:484-488). If a sweep or a push delivers that deposit in between, the marker
  it has just written is deleted and the deposit is offered to decryption again
  (`Redecryption.QuarantineForgetsADeliveredDeposit`). A deposit is re-offered exactly when some state of the run has a
  listable, once-marked deposit without a marker, and with working marker storage only that branch makes such a state.
* A put whose label is cut short, or a ceremony that starts under a running sweep, lets recovery drop the row of a leaf
  that is out (`CeremonyStranding`). The journal's documentation promises that nothing may be forgotten that way; the model
  follows the code. A dropped row's response is out, or can still get out, exactly when along the run a crash fell between
  its put and its label, its label failed or its put was torn, or its ceremony is about to label it or has still to
  release it (`CeremonySafety.DeniedNeverEscapes`).
* The registration journal reads a row, awaits, and writes or deletes it. A sweep's deletion that rests on a confirmed row
  can take the row of the next registration of that device (`CeremonySplit.CollisionLosesARegistration`). As long as no call
  lands on a row the other party has read, cutting the calls changes nothing.
* Sweeping early can keep what sweeping late would drop: a registration published in time and then never bound stays for
  good, while the same registration first seen past its deadline is deleted
  (`CeremonyRecovery.SweepInBetweenMattersExactly`).
* The guard that lets callers share one establishment belongs to one call of the activation verb, and stopping a call that
  timed out waits for nothing it has in flight. A rerun can then mint a second portable inbox: both are leased and published, and
  the one the rerun returned is no longer the portable primary (`ActivationOverlaps.TwoCallsPublishTwo`). It takes two
  empty reads of the pointer before either is written; without such an overlap the inbox is one for ever.
* Journal calls await storage between deciding and remembering. Two calls of different kinds in flight can leave READY or
  BOOTSTRAPPING on disk over ACTIVE, and one call of the verb can then return over it
  (`ActivationJournalRuns.OverlapTurnsTheDiskBack`, `ActivationOverlaps.OverlappingJournalReturnsEarly`). A torn journal
  write can turn the disk back as well (`ActivationJournal.TornWriteTurnsTheDiskBack`). The second of these runs needs a
  storage that may land two writes to one key in the other order; the first does not.
* `ServerDeviceActivationService.status` reports ACTIVE when there is no record, so `activateDelegatedDevice` can stop its
  runtime too early and return over a journal that is not ACTIVE, whether or not the certificate chain names an activation
  (`ActivationLimits.ReturnNeedsAKnownStatus`). That takes a start whose first sync did not get to write a record, as when
  the home is out of reach then. Where bundle publication is disabled the journal becomes ACTIVE without
  an inbox and no rerun ever returns.
* `AccountControlChannel.close` during a connect still opens a session (`IdleClose.CloseIsFinalUnlessConnecting`).
* A mobile wake between the loop's last test and the lowering of its flag gets no pass; a throwing inbox drain leaves its
  bit raised over an idle loop (`Coalescing`).
* The control codec loses an own `__proto__` key; a nullable number in a wire schema goes absent, null, zero through JSON;
  the key-shape test accepts 31 bytes as well as 32; a fingerprint with a line break can collide with two without.

## Assumptions

* `list` on a durable node returns ascending sequence numbers strictly after the cursor, without omissions up to the last
  one it returns; `cursorAck` is monotone.
* The peer-link layer reports a user message only with `decryptOk`, and `decryptOk` only with `consumed`; if a deposit can
  be opened twice at all, it gives the same plaintext. Applying a message is idempotent (the store is a set).
* The outbox and the processed log are wired and identities are not blank. With either missing, `staged` is true although
  nothing was stored (src/server/runtime/InboundDepositPipeline.js:287-292).
* On a node without a durable inbox a pushed frame carries no sequence number, so its identity is the event id the bridge
  acks. One mailbox per runtime. The clock is arbitrary: each read may return anything.
* The home says BAD_TARGET only of a cert that is not bound to the device; leaf certs are fresh per ceremony; claimant
  keys are never minted twice.
* InboxClaimStore is not part of this repository: it is taken to keep each claim durably and by itself, and to see what
  another instance over the same storage has kept.

## Model

| member | source | states |
|---|---|---|
| InboundSafety.NoSilentLoss | src/server/services/InboxCatchupService.js:238-416 | Over every run, with a crash at any await and any call failing or torn, each deposit the cursor has passed, each acked relay copy and each marked deposit is applied, staged with its plaintext intact, consumed as a protocol deposit, or given up under a poison bound |
| InboundSafety.AccountedForEver | src/server/runtime/InboundDepositPipeline.js:241-354 | A deposit accounted for at one point stays accounted for after any continuation: no later step, crash or poison drop takes it away |
| InboundSafety.RunKeeps | src/server/runtime/MailboxPushBridge.js:44-98 | The invariant of worker, drain, bridge and durable state is kept along every run, the push bridge's ack and drain decisions included |
| InboundSafety.WatermarkMoves | src/server/services/InboxCatchupService.js:376-395 | Moving the watermark over a safe item keeps everything up to it accounted for, because the page has no omissions |
| InboundSafety.RetryCountGood | src/server/runtime/InboundDepositPipeline.js:389-434 | Counting a failed re-apply, poison drop included, loses nothing that was accounted for |
| InboundSafety.AckCursorGood | src/server/services/InboxCatchupService.js:400-412 | An ack of the watermark, torn or not, passes accounted deposits only |
| QuarantineFloor.GivenUpOnlyAfterRealFailures | src/server/services/InboxCatchupService.js:442-501 | Whatever the clock does and however often the process restarts, a deposit or outbox entry is given up only with at least min(3, attempt cap) recorded failures, each of which really happened since its counter began |
| Redecryption.DecryptedAtMostOnce | src/server/runtime/InboundDepositPipeline.js:248-262 | While the marker lookup and write succeed and no quarantine forgets a live marker, no marked deposit the node can still offer is ever handed to decryption again, by push, drain, re-drain, sweep or restart |
| Redecryption.StepMarks | src/server/services/InboxCatchupService.js:429-501 | One step keeps every listable marked deposit's marker if and only if it is not a durable quarantine forgetting a live marker |
| Redecryption.RehandedExactlyWhenUnmarked | src/server/runtime/InboundDepositPipeline.js:338-350 | From a reachable state the guard holds on all undisturbed continuations exactly when every listable marked deposit still has its marker |
| Redecryption.QuarantineForgetsADeliveredDeposit | src/server/services/InboxCatchupService.js:471-491 | A concrete run with working marker storage in which a deposit is delivered, quarantined, loses its marker while still listable, and after a restart is decrypted a second time |
| CatchupDrain.DurableNode.List | src/server/services/InboxCatchupService.js:318-323 | A page is the next stretch of the log after the cursor; an item may lack a usable seq |
| CatchupDrain.CursorIsTheHighestAck | src/server/services/InboxCatchupService.js:400-408 | After any acks, lost and torn ones included, the cursor is the highest of where it was and what any ack that reached the node named |
| CatchupDrain.AcksInAnyOrder | src/server/services/InboxCatchupService.js:400-408 | Repeating or reordering acks leaves the same cursor |
| CatchupDrain.InboxCatchupService.HandleDurableFailure | src/server/services/InboxCatchupService.js:442-501 | It skips exactly when the failure is on record and the record is poisonous; then a notice was shown, the counter and marker are cleared and the backoff lifted; otherwise the counter rose by one, no marker is touched, and from the third failure on the seq is held back |
| CatchupDrain.InboxCatchupService.DrainItem | src/server/services/InboxCatchupService.js:344-398 | An item is submitted exactly when its backoff has elapsed, durable exactly when the result is ack-safe, and otherwise quarantined or a gap; only a quarantine costs its marker |
| CatchupDrain.InboxCatchupService.DrainPage | src/server/services/InboxCatchupService.js:324-399 | The watermark is the last seq of the longest gap-free prefix, the prunable seqs are the durable ones in it, the page is blocked exactly on a gap or a missing seq, and items past a gap are still submitted |
| CatchupDrain.InboxCatchupService.ForgetConsumed | src/server/services/InboxCatchupService.js:429-437 | Pruning loses no marker but those of the consumed seqs |
| CatchupDrain.InboxCatchupService.DrainWindow | src/server/services/InboxCatchupService.js:317-415 | One list-drain-ack turn: passes settled seqs only, keeps all other markers, and either ends the pass or strictly advances the cursor |
| CatchupDrain.InboxCatchupService.DrainDurable | src/server/services/InboxCatchupService.js:311-416 | A whole pass terminates on a finite log; the cursor passes only what was found durable or quarantined with a notice; above the cursor a marker goes only with a quarantine; the head is submitted at most once, which passes it or counts one failure below the cap, and is not submitted only if it had not arrived, was held back by the backoff map the pass began with, or a page was cut short by an item without a usable seq; catching up means everything that had arrived is passed |
| CatchupDrain.CutIsLongest | src/server/services/InboxCatchupService.js:330-341 | The prefixes without a gap are exactly those up to the cut |
| CatchupDrain.WatermarkCovers | src/server/services/InboxCatchupService.js:324-341 | Between cursor and watermark lie only items before the cut, and a non-empty cut moves the cursor by at least its length |
| CatchupDrain.InboxCatchupService.DrainRepeatedly | src/server/services/InboxCatchupService.js:311-501 | Over any number of passes without a fault, while the head is not passed its counter rises by exactly its submissions, every pass over an arrived head submits it, holds it back or is cut short, and so it is passed within as many other passes as the attempt cap leaves for it |
| RedrainClosure.InboundDepositPipeline.RedrainPending | src/server/runtime/InboundDepositPipeline.js:207-239 | Re-draining terminates, since each progressing pass shrinks the buffer, and ends where no retained deposit can be consumed |
| RedrainClosure.InboundDepositPipeline.Refeed | src/server/runtime/InboundDepositPipeline.js:212-232 | Re-feeding one retained deposit consumes it exactly when it is unlocked, and keeps the consumed set within every closed set |
| RedrainClosure.InboundDepositPipeline.UpdatePending | src/server/runtime/InboundDepositPipeline.js:180-201 | What could not be consumed is retained, bounded by the size cap, oldest first out |
| RedrainClosure.InboundDepositPipeline.Submit | src/server/runtime/InboundDepositPipeline.js:147-166 | A submit reports whether the deposit was already consumed or is unlocked, and leaves the buffer quiet |
| RedrainClosure.InboundDepositPipeline.Sweep | src/server/runtime/InboundDepositPipeline.js:118-124 | A sweep over a non-empty buffer leaves it quiet and consumes nothing it should not |
| RedrainClosure.InboundDepositPipeline.ConsumedIsLeastClosed | src/server/runtime/InboundDepositPipeline.js:159-239 | If neither cap dropped anything, the consumed set is the least set closed under unblocking |
| RedrainClosure.ArrivalOrderIsIrrelevant | src/server/runtime/InboundDepositPipeline.js:159-239 | Two pipelines that received the same deposits in any order have consumed the same ones |
| RedrainClosure.BumpKeeps | src/server/runtime/InboundDepositPipeline.js:219-232 | Counting a failed re-attempt leaves the entry or drops it at the cap, and touches no other |
| DepositProcessing.InboundDepositPipeline.ProcessOne | src/server/runtime/InboundDepositPipeline.js:241-354 | Look up, stage, apply, reconcile and mark leave exactly the stores, and report exactly the status, that the outcome of each call determines |
| DepositProcessing.InboundDepositPipeline.RetryEntry | src/server/runtime/InboundDepositPipeline.js:401-431 | One staged entry is re-applied and taken out, kept with at most one more failure, or dropped with poisonous accounting |
| DepositProcessing.InboundDepositPipeline.RetryApplyOutbox | src/server/runtime/InboundDepositPipeline.js:389-434 | Whatever fails, every staged entry is afterwards in the store, still staged with its payload, or reported as dropped; without a failure the outbox is empty |
| ProcessingRefinement.StepsRefineProcessOne | src/server/runtime/InboundDepositPipeline.js:241-354 | A run of the protocol in which only the worker moves, through the awaits of one deposit, leaves the stores as the method does and hands on its status, for every outcome of every call |
| SerialQueue.JobsRunOneAtATimeInOrder | src/server/runtime/InboundDepositPipeline.js:147-154 | Over every schedule and any crashes, for jobs of any number of awaits that may end at any of them: they begin in submission order, never two at once, and what is stored and what the running job holds in its variables is as if the jobs had run one after the other |
| SerialQueue.StretchIsNext | src/server/runtime/InboundDepositPipeline.js:147-154 | Whatever a job does up to its next await is the next stretch of the jobs run in turn |
| SerialQueue.NoEditIsLost | src/server/runtime/InboundDepositPipeline.js:383-387 | When every job has got and set the stored value, it holds all their edits in submission order |
| ApplyOutbox.InboundApplyOutbox.Stage | src/server/inbox/InboundApplyOutbox.js:76-91 | Staging adds an entry with zero attempts, and leaves an existing entry and its accounting alone |
| ApplyOutbox.InboundApplyOutbox.MarkApplied | src/server/inbox/InboundApplyOutbox.js:108-115 | Exactly the applied deposit's entry goes |
| ApplyOutbox.InboundApplyOutbox.RecordApplyFailure | src/server/inbox/InboundApplyOutbox.js:121-135 | The entry's count rises by one and is reported with its first staging time; a missing entry reports nothing |
| ApplyOutbox.InboundApplyOutbox.SaveMap | src/server/inbox/InboundApplyOutbox.js:62-69 | One atomic write of the mailbox's map, the empty map deleting the key |
| OutboxHistory.PendingIsStagedAndNotRemoved | src/server/inbox/InboundApplyOutbox.js:76-145 | After any history of calls, torn or not, a deposit is pending exactly when it was staged since its last removal, with the payload and time of the first such staging and every failure since |
| ProcessedLog.ProcessedDepositLog.RecordAttempt | src/server/inbox/ProcessedDepositLog.js:74-96 | The counter rises by one and keeps its first-seen time; no other counter changes |
| ProcessedLog.MarkedIsTheLastWord | src/server/inbox/ProcessedDepositLog.js:53-68 | After any history of calls, lost and torn ones included, a deposit is marked exactly when the last call about it that reached the disk marked it, or none did and it was marked before |
| CeremonyJournal.LabelsNeverReturn | src/records/domain/PendingCeremonyRecordV1.js:14-25 | Along any allowed history a label that is out stays out, and an expired row never comes out |
| CeremonyJournal.PendingCeremonyStore.CreatePending | src/server/storage/PendingCeremonyStore.js:70-98 | Refused exactly over an existing row that is not confirmed, expired ones included |
| CeremonyJournal.PendingCeremonyStore.Transition | src/server/storage/PendingCeremonyStore.js:104-123 | Attempted exactly on an existing row along an allowed transition, and changes the label alone |
| CeremonyJournal.PendingCeremonyStore.DeleteAfterRevoke | src/server/storage/PendingCeremonyStore.js:204-223 | A row goes only on a committed revoke that names its cert |
| CeremonyJournal.PendingCeremonyStore.DeleteAfterDisprovenCommit | src/server/storage/PendingCeremonyStore.js:246-279 | A row goes only on both proofs, for its own cert, and while its label is not out |
| CeremonyJournal.PendingCeremonyStore.List | src/server/storage/PendingCeremonyStore.js:147-193 | The work lists are exactly the pending rows, and exactly the unconfirmed rows past their deadline |
| CeremonyRecovery.CeremonyRecoveryWorker.Resume | src/server/services/CeremonyRecoveryWorker.js:144-151 | The label comes out only after the exact stored response was put, and whatever fails the owed outcome is unchanged |
| CeremonyRecovery.CeremonyRecoveryWorker.AskHome | src/server/services/CeremonyRecoveryWorker.js:165-214 | Committed means the cert is in the revoked set, denied means it is neither bound nor revoked, anything else is a fault |
| CeremonyRecovery.CeremonyRecoveryWorker.Compensate | src/server/services/CeremonyRecoveryWorker.js:157-243 | A row disappears only with its cert revoked, or denied with a label that never came out; without a fault it stays exactly when it is published and denied |
| CeremonyRecovery.CeremonyRecoveryWorker.ResumeAll | src/server/services/CeremonyRecoveryWorker.js:108-123 | The first phase publishes only rows whose response was put, and without a fault leaves none in time unpublished |
| CeremonyRecovery.CeremonyRecoveryWorker.CompensateAll | src/server/services/CeremonyRecoveryWorker.js:125-139 | Every row that goes goes with proof, rows otherwise only expire, and without a fault the retained list is exactly the due rows that remain |
| CeremonyRecovery.CeremonyRecoveryWorker.Sweep | src/server/services/CeremonyRecoveryWorker.js:102-141 | However partial, a sweep, with its own clock reading for each phase, preserves what every registration due by the first is owed, and without a fault delivers it; with one reading that goes for the whole state, every expired unconfirmed row gone except those published and denied |
| CeremonyRecovery.CeremonyRecoveryWorker.SweepUntilClean | src/server/services/ServerDeviceLinkService.js:160-204 | Any number of sweeps over a clock that never goes back, killed anywhere, then one without a fault: every row due at the first reading ends, row, binding and revocation, as the first state owed at that reading |
| CeremonyRecovery.LaterReadingChangesExactly | src/server/services/CeremonyRecoveryWorker.js:108-139 | A later reading changes what a row is owed exactly when the row becomes due in between and is not published, or is revoked or bound |
| CeremonyRecovery.SweepInBetweenMattersExactly | src/server/services/CeremonyRecoveryWorker.js:108-139 | An earlier sweep changes what a later one does with a row exactly when it published, still in time, a registration neither bound nor revoked |
| CeremonyRecovery.RevokingIsNeutral | src/server/services/CeremonyRecoveryWorker.js:175-214 | A sweep killed after the revoke committed still owes the same outcome |
| CeremonyRecovery.DeletingIsNeutral | src/server/services/CeremonyRecoveryWorker.js:165-236 | Deleting a row that is owed no revoke and need not stay changes nothing owed |
| CeremonyRecovery.ExpiringIsNeutral | src/server/services/CeremonyRecoveryWorker.js:158-163 | A sweep killed after marking a row expired still owes the same outcome |
| CeremonyRecovery.PublishingIsNeutral | src/server/services/CeremonyRecoveryWorker.js:144-151 | A sweep killed after the label still owes the same outcome |
| CeremonySafety.DeletedOnlyWithProof | src/server/services/CeremonyRecoveryWorker.js:157-243 | Over all runs of ceremonies, sweeps and crashes, a row is deleted only with its cert in the revoked set, or denied by the home with a label that never came out |
| CeremonySafety.LabelledMeansPut | src/server/services/CeremonyRecoveryWorker.js:143-146 | A published or confirmed label, whoever wrote it, belongs to a response whose exact stored bytes were put |
| CeremonySafety.OutWithoutLabel | src/server/services/CeremonyRecoveryWorker.js:143-151 | Over every run a response is out exactly when its label is out too, a party is about to write it, or along the run a crash fell between the two, the label failed, or the put was torn |
| CeremonySafety.DeniedNeverEscapes | src/server/services/CeremonyRecoveryWorker.js:225-237 | The response of a row dropped on a denial is out, or gets out by some continuation, exactly when its label was cut short along the run, or its ceremony has put it or has still to release it |
| CeremonyStranding.CutLabelStrandsALeaf | src/server/services/CeremonyRecoveryWorker.js:144-146 | A run: put, crash before the label, deadline, denial, deletion, with the response still in its slot |
| CeremonyStranding.OverlapStrandsALiveLeaf | src/server/services/ServerDeviceLinkService.js:119-192 | A run: a ceremony starts under a sweep, is denied and deleted before it registers, then registers and releases a live leaf without a row |
| CeremonySplit.SyncExactly | src/server/storage/PendingCeremonyStore.js:70-123 | With every journal call cut between its read and its write, a step leaves all calls in flight resting on the rows they read exactly when it does not write or delete a row the other party has read |
| CeremonySplit.ApartMeansUncut | src/server/storage/PendingCeremonyStore.js:104-279 | While no such collision happens, a run with cut calls is a run of the system with whole calls, so all its results hold, and a row that was never confirmed goes only with one of the two proofs |
| CeremonySplit.CollisionLosesARegistration | src/server/storage/PendingCeremonyStore.js:204-223 | A run with one collision: a deletion that rests on a revoked, confirmed row takes the row of the device's next registration, whose leaf is then added and released with no row, revoke or denial |
| ActivationJournal.RehydrationIsFaithful | src/server/device/DeviceActivationJournal.js:115-129 | A record written and read back is the same record, and normalisation is idempotent |
| ActivationJournal.DeviceActivationJournal.HydrateFromDisk | src/server/device/DeviceActivationJournal.js:40-45 | Hydration reads the normalised disk once |
| ActivationJournal.DeviceActivationJournal.Ensure | src/server/device/DeviceActivationJournal.js:59-76 | Starts or resumes; throws exactly before hydration, without an id, over another activation's record, or on a failed write |
| ActivationJournal.DeviceActivationJournal.Ready | src/server/device/DeviceActivationJournal.js:79-90 | READY only from BOOTSTRAPPING, memory following the disk |
| ActivationJournal.DeviceActivationJournal.Active | src/server/device/DeviceActivationJournal.js:97-108 | ACTIVE from anywhere, idempotently |
| ActivationJournal.CallMovesForward | src/server/device/DeviceActivationJournal.js:59-113 | A call that nothing interrupts keeps memory behind the disk with the same activation id, and turns the disk back exactly on two named branches |
| ActivationJournalRuns.ActivationRunsForward | src/server/device/DeviceActivationJournal.js:40-129 | Over any interleaving of calls split at their storage calls, and any kills, with no torn write and no call beginning while one of another kind is in flight, the disk moves only forward with a fixed id, and memory agrees with it whenever nothing is in flight |
| ActivationJournalRuns.MemoryIsNeverAhead | src/server/device/DeviceActivationJournal.js:110-113 | With torn writes too, as long as no such calls overlap, memory is never ahead of the disk |
| ActivationJournalRuns.OverlapBreaksExactly | src/server/device/DeviceActivationJournal.js:110-113 | From a journal in step, beginning a call can leave memory and disk apart, by nothing but completions, exactly when a call of another kind is in flight |
| ActivationJournalRuns.OverlapTurnsTheDiskBack | src/server/services/ServerDeviceActivationService.js:99-172 | A run without a torn write: a sync's ACTIVE and the marker's READY are both in flight, READY lands last, and memory says ACTIVE |
| ActivationJournalRuns.UninterruptedCallIsTheMethod | src/server/device/DeviceActivationJournal.js:59-113 | A call whose storage call completes before anything else happens does what the journal's method does, for every outcome |
| ActivationJournal.TornWriteTurnsTheDiskBack | src/server/device/DeviceActivationJournal.js:79-90 | A torn ACTIVE followed by the baseline marker writes READY over ACTIVE |
| PortableInbox.PortableInboxEstablisher.Ensure | src/server/inbox/PortableInboxEstablisher.js:141-221 | The portable primary is recorded once, a claim is minted only while there is none, only the portable primary is leased, success means that inbox with a lease accepted or on record, an unexpired lease needs no network, and with every call answered it fails only on a lost claim or on the bootstrap inbox |
| PortableInbox.PortableInboxEstablisher.RegisterClaim | src/server/inbox/inboxClaimWire.js:35-109 | A lease goes on record only after the provider accepted the claim |
| PortableInbox.InboxClaimant.Bootstrap | src/server/inbox/InboxClaimant.js:29-145 | A portable boot yields the portable primary's claim or refuses and writes nothing; an enrollment claims exactly the ceremony inbox and records no primary; a single-transport boot keeps the stored primary and refuses a contradicting ceremony |
| PortableInboxRuns.OneInboxForEver | src/server/inbox/PortableInboxEstablisher.js:133-221 | Over any number of establishers, callers, kills and reruns in which no two empty reads of the pointer overlap, everything leased, recorded as leased or returned is the one portable primary, never the bootstrap inbox |
| PortableInboxRuns.PortableIsWrittenOnce | src/server/inbox/PortableInboxEstablisher.js:133-178 | Over such runs, whatever is returned before and after any continuation is the same inbox |
| PortableInboxRuns.AloneIsApart | src/server/inbox/PortableInboxEstablisher.js:133-139 | One establisher, however many callers share it, never overlaps an empty read, so both hold for it |
| PortableInboxRuns.OverlapBreaksExactly | src/server/inbox/PortableInboxEstablisher.js:141-165 | From a state with one inbox, an action can lead to two leased ones without a further overlap exactly when it is an empty read while another establisher is between its own and its pointer write |
| PortableInboxRuns.TwoEstablishersLeaseTwo | src/mobile/activateDelegatedDevice.js:130-139 | A run of two establishers: the second leases and returns its inbox, then the first overwrites the pointer and leases its own |
| PortableInboxRuns.OrphansStayInvisible | src/server/inbox/PortableInboxEstablisher.js:157-165 | Whatever overlaps, a claim that never became the portable primary is never leased, recorded as leased or returned, nor is the bootstrap inbox |
| ActivationSafety.ReturnMeansActive | src/mobile/activateDelegatedDevice.js:146-255 | Over any kills and reruns in which the verb is called only when an earlier call has nothing in flight, no journal calls of different kinds overlap and no status is answered without a record, every return hands out the portable primary over an ACTIVE journal, and it stays the portable primary |
| ActivationSafety.OnlyALeasedInboxIsPublished | src/server/services/ServerDeviceActivationService.js:182-204 | However everything overlaps, no bundle ever names an inbox the portable provider has not accepted, and where bundles are published ACTIVE is on disk only after one was |
| ActivationSafety.OnlyThePortableInboxIsPublished | src/server/services/ServerDeviceSetService.js:130-152 | While no two empty reads of the pointer overlap, no bundle ever names another inbox than the portable primary |
| ActivationSafety.StepKeepsReturn | src/server/services/ServerDeviceActivationService.js:87-204 | Each step of sync, marker, commit, publication, establishment and verb keeps the invariant behind that, under the conditions on that step alone |
| ActivationLimits.ReturnNeedsAKnownStatus | src/server/services/ServerDeviceActivationService.js:36-40 | If a status may be answered without a record, all returns are over an ACTIVE journal exactly where bundles are not published, and there no call ever returns |
| ActivationOverlaps.ReturnNeedsOrder | src/mobile/activateDelegatedDevice.js:130-255 | If journal calls or calls of the verb may overlap, all returns are over an ACTIVE journal, and are the portable primary afterwards, exactly where bundles are not published |
| ActivationOverlaps.TwoCallsPublishTwo | src/mobile/activateDelegatedDevice.js:164-255 | A run: the first call times out with its claim minted; the second publishes and returns its inbox; then the first makes its own the portable primary and publishes it |
| ActivationOverlaps.OverlappingJournalReturnsEarly | src/server/services/ServerDeviceActivationService.js:87-174 | A run of a single call: a slow first BOOTSTRAPPING write lands after ACTIVE, and the verb returns |
| ActivationLimits.ActiveHasAnInboxIffPublishing | src/server/services/ServerDeviceSetService.js:130-152 | Whatever overlaps, ACTIVE always comes with a portable inbox exactly when bundles are published |
| Coalescing.EveryRequestIsCovered | src/server/services/InboxCatchupService.js:180-200 | With no throwing pass and no request in the gap, a waiting request waits on a running pass whose end starts the pass that covers it |
| Coalescing.BurstAddsOnePass | src/server/runtime/MobileLifecycleAdapter.js:114-137 | Any number of requests during a pass adds exactly one further pass, which covers them all |
| Coalescing.StepKeeps | src/server/runtime/MobileLifecycleAdapter.js:114-137 | A request starts a pass only over a sleeping loop, each event starts at most one, and the loop falls asleep over waiting requests exactly on a throw over a raised bit or after a request in the gap |
| Coalescing.WakeInTheGapIsLost | src/server/runtime/MobileLifecycleAdapter.js:130-135 | A request between the last test and the lowered flag starts nothing; only the converge loop has that gap |
| Coalescing.ThrowStrandsTheBit | src/server/services/InboxCatchupService.js:186-194 | A throw over a raised bit leaves it raised over an idle loop, and the next request clears it with a pass |
| Coalescing.PassScheduler.Settle | src/server/services/InboxCatchupService.js:187-194 | The loop goes round exactly when the pass returned with the bit raised |
| IdleClose.TimerArmedExactlyWhenIdle | src/server/runtime/AccountControlChannel.js:107-214 | At every await point the timer is armed exactly when a session is open with nothing in flight, and work runs only on the one open session until the channel is closed |
| IdleClose.NeverTornUnderWork | src/server/runtime/AccountControlChannel.js:165-214 | Neither the idle timer nor suspend tears a session down under work in flight or a connect |
| IdleClose.SuspendLeavesExecutePossible | src/server/runtime/AccountControlChannel.js:107-172 | An execution is let in exactly when the channel was never closed, however often it was suspended |
| IdleClose.CloseIsFinalUnlessConnecting | src/server/runtime/AccountControlChannel.js:136-195 | After close a session can be open again exactly when a connect was in flight |
| IdleClose.AccountControlChannel.Execute | src/server/runtime/AccountControlChannel.js:107-126 | Refused exactly when closed; otherwise disarms the timer and joins or starts the one connect |
| IdleClose.AccountControlChannel.WorkEnds | src/server/runtime/AccountControlChannel.js:127-132 | The last work to end over an open session arms the timer |
| IdleClose.AccountControlChannel.SuspendNow | src/server/runtime/AccountControlChannel.js:165-172 | Suspends exactly an open, idle, unclosed channel, and never closes it |
| Base64.DecodeInvertsEncode | src-tauri/src/notify.rs:23-50 | Decoding either encoding of any byte sequence gives it back |
| Base64.DecodeBase64 | src-tauri/src/notify.rs:23-50 | The streaming loop over an overflowing 32-bit buffer decodes, or rejects, exactly as the sextet meaning does |
| Base64.EncodeBase64 | src-tauri/src/keychain.rs:19-41 | The chunk loop produces the padded text of the bytes' sextets |
| Base64.EncodeBase64Url | src-tauri/src/lib.rs:76-96 | The bit-buffer loop over an overflowing 32-bit buffer produces the unpadded url-safe text of the bytes' sextets |
| Base64.BytesInvertSextets | src-tauri/src/notify.rs:41-47 | Regrouping the bits of any bytes into sextets and back is the identity |
| Base64.SymbolEnters | src-tauri/src/notify.rs:41-47 | What leaves and what stays in the low bits is as if the buffer never overflowed |
| Base64.LookupInvertsSymbol | src-tauri/src/notify.rs:24-30 | The decoder's table inverts both alphabets and skips none of their symbols |
| Base64.EncodedLengths | src-tauri/src/keychain.rs:19-41 | Padded length is four per three bytes begun; unpadded is the bits divided by six, rounded up |
| Base64.LooksLikeKeyExactly | src-tauri/src/keychain.rs:43-46 | The key-shape test accepts the encodings of exactly the 31- and 32-byte sequences |
| ControlCodec.RoundTripExactly | src/desktop/transport/ControlFrameCodec.js:60-99 | A tree encodes exactly when no object uses the reserved key, and then comes back the same exactly when no object has an own `__proto__` key |
| ControlCodec.DecodeEncode | src/desktop/transport/ControlFrameCodec.js:60-99 | Decoding an encoding gives the tree without its `__proto__` entries |
| ControlCodec.ProtoKeyIsLost | src/desktop/transport/ControlFrameCodec.js:73-76 | The smallest tree that encodes and does not come back |
| SchemaCoercion.SettlesIffStable | src/records/SchemaRecord.js:41-162 | A record class gives every input back unchanged on a second trip through JSON exactly when its schema has no nullable number, its numeric starting values survive their clamp, its string defaults are in normal form, and so on for nested records |
| SchemaCoercion.StableSettles | src/records/SchemaRecord.js:67-162 | Coercing a coerced value of a stable field changes nothing |
| SchemaCoercion.UnstableChanges | src/records/SchemaRecord.js:90-155 | Every unstable field has an input that changes on the second trip; for a nullable number it is the missing one |
| Identities.SameDepositExactly | src/server/runtime/depositIdentity.js:8-15 | Two frames have one dedup identity exactly when their seqs agree, or both lack one and their event ids agree, or one event id spells the other's seq identity |
| Identities.SameDigestInputExactly | src/records/payloads/originalMessageShapes.js:182-187 | For newline-free fingerprints the hashed string is the same exactly when the lists are the same set, empty strings aside |
| Identities.SharedDigestExactly | src/records/payloads/originalMessageShapes.js:182-187 | Any two lists, line breaks or not, hash the same string exactly when their ordered sets read line by line are the same |
| Identities.NewlineBreaksTheDigest | src/records/payloads/originalMessageShapes.js:186-187 | With a line break in a fingerprint two different sets can share the hashed string |
| Identities.CanonicalIsTheSet | src/records/payloads/originalMessageShapes.js:183-187 | Filtering, deduplicating and sorting lists the set of non-empty fingerprints in order |

## Left out

- Decryption, ratchets, signatures, key derivation and hashing: decryption is an answer of the environment, and the digest is compared before hashing.
- CatchupDrain.InboxCatchupService.DrainDurable: covers the durable node; the relay drain with its list, fetch and delete is modelled in `InboundProtocol` only, as steps.
- CatchupDrain.InboxCatchupService.Submit: the pipeline between the drain's awaits is an arbitrary answer that only adds markers; its own behaviour is `InboundProtocol` and `RedrainClosure`.
- RedrainClosure.InboundDepositPipeline.ProcessOne: staging and applying are not part of the buffer's class, where being consumable is a predicate on what has been consumed; they are in `DepositProcessing`.
- Quarantine notices in `InboundProtocol`: a giving-up is a history event; that the durable path notifies before it skips is in `CatchupDrain`. A seq quarantined behind a gap can be noticed again, and an outbox drop's notice can be lost in a crash.
- MailboxPushBridge as a callback object: its reaction to a resolved submit is the step `BridgeNext`, and its enqueue guard is not modelled.
- CatchupDrain.InboxCatchupService.DrainRepeatedly: a pass with a fault in it may clear the head's counter without passing the head, so only runs without faults are bounded.
- ActivationSafety.ReturnMeansActive: its conditions are shown needed by runs, one for each kind of overlap, not by an equivalence for each single action.
- `DrainDurable` and `RedrainPending` are not tied to the steps of `InboundProtocol` by a refinement, as one deposit's processing is; each is proved against its own specification.
- CeremonySafety.DeletedOnlyWithProof: each journal call is one step there, as in the other results about `CeremonyRuns`; `CeremonySplit` says when that loses nothing.
- CeremonyRecovery.CeremonyRecoveryWorker.Sweep: the skip list is modelled, its one caller passes none.
- CeremonyRecovery.CeremonyRecoveryWorker.SweepUntilClean: speaks of the row, its binding and its cert; which responses sit in their slots afterwards is said of one sweep only.
- The approver's own deadline check, and what the home does when a device is added twice: DeviceLinkApprover and the home are not part of this model; adding binds the newest cert.
- PortableInbox.PortableInboxEstablisher.Ensure: a claim store that caches what it read would make an establisher fail that starts before another's claim is stored; here it goes on with that claim.
- ActivationRuns: the verb's first two reads, of the journal and of the inbox, are one step; the poll interval, the sync retry throttle and the baseline request traffic are not modelled, nor that ids are trimmed.
- The poll loop of `activateDelegatedDevice` as a `while` loop: its clock is arbitrary, so it is a step that may be taken at any time.
- MobileLifecycleAdapter's step list and report, its wake reasons, and the periodic timers: instances of calling one directive after another.
- Coalescing: the `inbox.caughtup` event and the promise a caller awaits are not modelled.
- The backoff map's pruning above 16384 entries, and an eventId-less item of a relay page beyond being skipped.
- Base64.DecodeBase64: a text is a sequence of characters, a character outside the alphabets standing for the bytes that encode it.
- ControlCodec.RoundTripExactly: the wire is taken after JSON, as own enumerable keys in order; the host's base64 is the one of `Base64`.
- SchemaCoercion.SettlesIffStable: validation, hooks before coercion and record instances passed in are left out; numbers are reals, clamps of integer fields are integers, and the host's trim, lower-casing and number parsing are functions with the laws they need.
- Sockets, IPC, watchdogs, tray, updater, biometrics, logging and event emission.
- `redact.js`, `slugifyChannelLabel` and the params, results and events records: instances of the schema interpreter or text handling that would only add easy members.
