# Bornera connection ownership

A Dafny model of the connection owner of Bornera, and proofs of what it promises.

The **core** (`bornera-core`) owns one connection epoch: policy records in wire order, complete frames with
byte progress, a capacity ledger shared with affine permits, and a preallocated recovery journal. The
**slot** (`bornera`) interprets the core's effects into timers, outcomes, lifecycle events and a close
directive, and drives an arbitrary transport under a work budget. The **set** schedules slots round robin.

## How it is laid out

| part | modules |
|---|---|
| state and its pure specification | `Primitives`, `KeySet`, `Ledger`, `Operations`, `Writer`, `Machine`, `Journal`, `Recovery`, `Core` |
| the source's objects, updated in place, each method equal to its specification | `KeySet.ActiveKeySet`, `Ledger.ReservationLedger`, `Writer.WriteQueue`, `Journal.RecoveryJournal`, `Policy.OperationPermit`, `Policy.ConnectionMachine`, `WireOrder.Salvage`, `Owner.ConnectionCore` |
| a core with its history, and what each step keeps | `World`, `Moves`, `Progress`, `Removal`, `Closure`, `Settlement`, `Agreement`, `Admission`, `Rescue`, `Reconciling`, `Steps`, `Reports`, `Runs` |
| theorems over every run of a core | `Guarantees`, `Grace` |
| theorems over any core whatever, however inconsistent, that fails partway | `Faults` |
| the slot, and three hosts of one | `SlotEffects`, `SlotSteps`, `Bounded`, `SlotState`, `Slot`, `Hosting` |
| the set | `ReadySet` |

A `World.World` is a core together with what happened to it: live permits, every accepted frame, every effect
returned, every byte acknowledged, everything recovered. `Runs.Run` applies any sequence of actions to a fresh
owner: reserve, drop a permit, commit, any input, any reply, any progress report, recover. There is no
assumption about their order or arguments. `Runs.StepKeeps` is the invariant's step; the lemmas of
`Guarantees` are what it means.

`Slot.ConnectionSlot` keeps the core as such a value beside its history, and its `Valid` ties the timers, the
outcome batch, the lifecycle stream and the close directive to it. `Owner.ConnectionCore` shows that the
in-place owner computes exactly those values.

## What turned out different from what one would expect

- **A drained close without a drain.** Closing an open slot for the reason "drained" when no drain was begun
  fails the slot with its missing-shutdown-deadline error (`crates/bornera/src/transition.rs:191-203`), so that
  error is not unreachable. `Slot.ConnectionSlot.Finalize` states exactly when it is returned, and
  `Hosting.CloseUndrained` is a run that ends so. No other operation of the slot returns it: their contracts say
  `Explained`, which excludes it.
- **Grace without an empty queue.** A drain that is finalized as drained before its queue emptied is still
  granted its graceful shutdown, while its unfinished operations fail as closed by a drain;
  `Hosting.GraceUnfinished` is such a run. `Grace.DrainedUnfinishedOnlyByRequest` gives the exact condition, over
  every run: an operation fails because its connection closed as drained if and only if a caller asked for that
  closure while an operation was unfinished. A drain that ends by itself fails none.
- **Short over-reports are invisible.** A transport that claims more bytes than the slice it was offered, but no
  more than its frame has left, is believed (`crates/bornera/src/drive/application.rs:128-151`);
  `Hosting.ShortClaim` is such a run. `Slot.ConnectionSlot.TransportTookFrames` says that a transport took exactly
  the wire if and only if it never made such a claim; a claim of more than the frame has left moves nothing and
  breaks the owner. The core's own wire theorem needs no condition.
- **Early turns.** A set whose turn ends early, because a slot broke its memory contract while it was released
  (`crates/bornera/src/set_drive/ready.rs:93-99`), has not served everybody it could have; `ReadySet.EarlyTurn` is
  such a run. `ReadySet.ConnectionSet.Turn` says exactly who was served by a successful turn and by one that ended
  early, and `ReadySet.Play` who is served in any run of a set: exactly those whose place lies below the number
  served and the number removed ahead of them, hence everybody within as many successful turns as make up for
  their place.
- **Key set headroom.** The open-addressing table relies on a spare slot, which `KeySet.CapacityHeadroom` shows
  it has exactly while the operation bound is at most 2^62.
- **The debug audit.** The audit of frames against records runs in debug builds only. It never finds anything in
  a working owner, and audited and unaudited builds behave the same in every run.

## Model

| member | source | states |
|---|---|---|
| `KeySet.ProbeDecidesMembership` | crates/bornera-core/src/admission/key_set.rs:66-76 | In a table whose probe paths have no gaps, probing from a key's home finds it exactly when the table holds it |
| `KeySet.PlacedAddsOneKey` | crates/bornera-core/src/admission/key_set.rs:32-46 | Insertion adds exactly the new key when it was absent and room was left, and keeps every probe path free of gaps |
| `KeySet.ReinsertAdvances` | crates/bornera-core/src/admission/key_set.rs:48-64 | Taking one displaced key out and inserting it again brings the removal one slot closer to a gap-free table and changes no membership |
| `KeySet.ReinsertionDone` | crates/bornera-core/src/admission/key_set.rs:55-62 | Removal stops exactly at the end of the cluster, and then no probe path has a gap |
| `KeySet.CapacityHeadroom` | crates/bornera-core/src/admission/key_set.rs:12-22 | The table has a spare slot beside its bound if and only if doubling the bound fits the machine word |
| `KeySet.ActiveKeySet.constructor` | crates/bornera-core/src/admission/key_set.rs:12-22 | A fresh table is the empty set with the computed power-of-two size |
| `KeySet.ActiveKeySet.Find` | crates/bornera-core/src/admission/key_set.rs:66-76 | In-place probing returns the slot of the key, or nothing if the set lacks it |
| `KeySet.ActiveKeySet.Insert` | crates/bornera-core/src/admission/key_set.rs:32-46 | In-place insertion adds exactly this key to the set, or refuses a duplicate or a full table |
| `KeySet.ActiveKeySet.Remove` | crates/bornera-core/src/admission/key_set.rs:48-64 | In-place removal with cluster reinsertion terminates and deletes exactly this key |
| `Ledger.KeyAllocationPigeonhole` | crates/bornera-core/src/admission/ledger.rs:90-104 | Probing one more candidate than there are active keys finds a free key unless every key of the space is active |
| `Ledger.ReserveBalanced` | crates/bornera-core/src/admission/ledger.rs:46-88 | A granted reservation keeps every counter equal to the sum over its holders and uses a key nobody holds |
| `Ledger.CommitBalanced` | crates/bornera-core/src/admission/ledger.rs:110-125 | Committing shrinks a permit to its measured size and leaves the ledger the sum over its holders, that one now an operation |
| `Ledger.ReleaseBalanced` | crates/bornera-core/src/admission/ledger.rs:131-176 | Releasing any holder never underflows and leaves the sum over the others |
| `Ledger.ReservationLedger.AllocateKey` | crates/bornera-core/src/admission/ledger.rs:90-104 | The probing loop returns the first free key in cyclic order and advances past it |
| `Ledger.ReservationLedger.Reserve` | crates/bornera-core/src/admission/ledger.rs:46-88 | In-place reservation is all or nothing and equals its specification |
| `Ledger.ReservationLedger.ReleaseAll` | crates/bornera-core/src/admission/ledger.rs:131-176 | In-place release equals its specification, latching instead of underflowing |
| `Writer.WriteQueue.AdmitFrame` | crates/bornera-core/src/write/admission.rs:14-83 | In-place admission appends the frame and its bytes, or says why not and changes nothing |
| `Writer.WriteQueue.FrontSlice` | crates/bornera-core/src/write/queue.rs:35-71 | Offers at most the requested number of bytes, and those are the next ones the front frame has left |
| `Writer.WriteQueue.AdvanceFront` | crates/bornera-core/src/write/queue.rs:73-151 | In-place progress equals its specification: stale, partial, complete or over-reported |
| `Writer.WriteQueue.DiscardEffect` | crates/bornera-core/src/write/queue.rs:154-176 | Removes exactly the named frame and returns its bytes to the budget |
| `Writer.WriteQueue.AccountingIsValid` | crates/bornera-core/src/write/integrity.rs:16-24 | The checked fold agrees with the recorded total exactly when that is the sum over the frames |
| `Journal.RecoveryJournal.BeginAll` | crates/bornera-core/src/connection/journal.rs:53-63 | Fills the preallocated slots with a copy of every record at its wire index, and says whether all fitted |
| `Journal.RecoveryJournal.TakeOperations` | crates/bornera-core/src/connection/journal.rs:121-128 | Empties the operation slots in the order they were filled |
| `Journal.RecoveryJournal.Store` | crates/bornera-core/src/connection/journal.rs:92-102 | Keeps a removed frame in the next free slot, or says that none was left |
| `Policy.OperationPermit.Drop` | crates/bornera-core/src/admission/permit.rs:64-71 | Rolls an active permit back exactly once |
| `Policy.ConnectionMachine.CloseInto` | crates/bornera-core/src/connection/close.rs:17-64 | The popping loop announces and releases every record once, in wire order, as its specification says |
| `Policy.ConnectionMachine.Apply` | crates/bornera-core/src/connection/drive.rs:10-126 | Every input changes the in-place policy exactly as specified |
| `Policy.ConnectionMachine.Cancel` | crates/bornera-core/src/connection/cancellation.rs:9-72 | Removes an unsent operation, leaves a tombstone for one that may be sent |
| `Policy.ConnectionMachine.DeadlineElapsed` | crates/bornera-core/src/connection/deadline.rs:9-63 | Fails an unsent operation alone, closes the epoch when bytes may have left, rearms an early timer |
| `Policy.ConnectionMachine.ApplyReply` | crates/bornera-core/src/connection/response.rs:10-68 | Only the front operation with this very key takes the reply |
| `WireOrder.RecoverInWireOrder` | crates/bornera-core/src/connection/recovery.rs:81-174 | The slot-emptying loops terminate, on any journal and records whatever, and recover what the merge specifies |
| `WireOrder.Salvage.RecoverEntry` | crates/bornera-core/src/connection/recovery_item.rs:7-28 | A journaled tombstone changes nothing; an unfinished operation is handed over with its own frame, and a frame missing or left over is noticed |
| `Owner.ConnectionCore.Commit` | crates/bornera-core/src/connection/core.rs:79-120 | In-place commit equals its specification; a refused permit stays live |
| `Owner.ConnectionCore.Apply` | crates/bornera-core/src/connection/progress.rs:12-29 | In-place inputs equal their specification, poisoning included |
| `Owner.ConnectionCore.ApplyReply` | crates/bornera-core/src/connection/progress.rs:32-49 | In-place replies equal their specification |
| `Owner.ConnectionCore.Advance` | crates/bornera-core/src/connection/progress.rs:52-127 | In-place progress reports equal their specification |
| `Owner.ConnectionCore.ReconcileEffects` | crates/bornera-core/src/connection/integrity.rs:86-130 | Discards every frame the policy gave up, journaling it, and keeps the other effects in order |
| `Owner.ConnectionCore.MergeViolation` | crates/bornera-core/src/connection/integrity.rs:55-84 | The audit loop reports the first disagreement of held records and queued frames |
| `Owner.ConnectionCore.RecoverAll` | crates/bornera-core/src/connection/recovery.rs:40-79 | In-place recovery equals its specification and leaves the owner unusable |
| `Recovery.MergeRestoresWireOrder` | crates/bornera-core/src/connection/recovery.rs:81-174 | Merging a journal of a prior list with the records that outlived it gives back every prior operation once, at its place |
| `Recovery.MergeKeepsPolicy` | crates/bornera-core/src/connection/recovery.rs:81-174 | Whatever the journal says, every surviving record comes out exactly once |
| `Recovery.MergeKeepsJournal` | crates/bornera-core/src/connection/recovery.rs:81-174 | Every journaled operation without a surviving record comes out too |
| `Recovery.RestoredInOrder` | crates/bornera-core/src/connection/recovery.rs:176-202 | Exactly the unfinished survivors are recovered, in their order |
| `Recovery.EveryFrameHomed` | crates/bornera-core/src/connection/recovery_item.rs:30-39 | Every frame rejoins its own operation, is reported unmatched, or belonged to a pending tombstone |
| `Recovery.NoFrameMisplaced` | crates/bornera-core/src/connection/recovery_item.rs:30-47 | No frame is given to another operation or invented, and certainty never strengthens |
| `Faults.CoveredRecovers` | crates/bornera-core/src/connection/recovery.rs:40-79 | An owner whose journal covers what left recovers exactly the prior unfinished operations in order |
| `Faults.InputJournaled` | crates/bornera-core/src/connection/progress.rs:129-166 | Every record an input removes was journaled beforehand at its wire index, in any owner |
| `Faults.ReplyJournaled` | crates/bornera-core/src/connection/progress.rs:168-188 | Every record a reply removes was journaled beforehand at its wire index, in any owner |
| `Faults.CompletionJournaledFirst` | crates/bornera-core/src/connection/progress.rs:82-112 | The record a completed frame removes was journaled beforehand at its wire index |
| `Faults.FailedInputRecovers` | crates/bornera-core/src/connection/progress.rs:12-29 | Any input that fails, in any inconsistent owner, loses no unfinished operation |
| `Faults.FailedReplyRecovers` | crates/bornera-core/src/connection/progress.rs:32-49 | Any reply that fails, in any inconsistent owner, loses no unfinished operation |
| `Faults.FailedReportRecovers` | crates/bornera-core/src/connection/progress.rs:52-127 | Any progress report that fails, in any inconsistent owner, loses no unfinished operation |
| `Faults.FailedStepPlaces` | crates/bornera-core/src/connection/recovery.rs:40-79 | After any failed step every queued frame ends with its own operation, unmatched, or with a tombstone |
| `Agreement.AuditIsExact` | crates/bornera-core/src/connection/integrity.rs:55-84 | The audit is silent exactly when policy and writer own the same frames in the same order |
| `Agreement.WriterNeverRefuses` | crates/bornera-core/src/write/admission.rs:47-83 | What the policy admits the writer admits too: count, bytes and identities are covered by the reservation |
| `Reconciling.RemovalReconciles` | crates/bornera-core/src/connection/integrity.rs:86-130 | The frame of a removed record is found, journaled and removed; nothing else moves |
| `Reconciling.ClosureReconciles` | crates/bornera-core/src/connection/integrity.rs:86-130 | Closing takes every frame back whatever the mix of written, started and queued records |
| `Reconciling.JournalRoom` | crates/bornera-core/src/connection/journal.rs:76-102 | The preallocated journal holds every frame and record a reachable owner can have |
| `Steps.InputPrepares` | crates/bornera-core/src/connection/progress.rs:129-166 | No input of a healthy owner finds the journal too small |
| `Steps.ReplyPrepares` | crates/bornera-core/src/connection/progress.rs:168-188 | No reply of a healthy owner finds the journal too small |
| `Reports.CompletionJournaled` | crates/bornera-core/src/connection/progress.rs:82-104 | A completed frame and its record are journaled, at its wire index, before the policy moves |
| `Steps.CancelComputes` | crates/bornera-core/src/connection/cancellation.rs:9-72 | What a cancellation does to a healthy owner with its queue: removal, tombstone or nothing |
| `Steps.DeadlineComputes` | crates/bornera-core/src/connection/deadline.rs:9-63 | What an elapsed, early or unknown deadline does to a healthy owner with its queue |
| `Steps.ReplyComputes` | crates/bornera-core/src/connection/response.rs:10-68 | A reply goes to the head with its own key; any other reply of a live epoch closes it |
| `Steps.RestComputes` | crates/bornera-core/src/connection/lifecycle.rs:9-50 | Opening, draining and closing happen only from the phase and gate they follow |
| `Reports.AdvanceComputes` | crates/bornera-core/src/connection/progress.rs:52-127 | Every progress report, right or wrong, leaves a healthy owner in the world stated for it |
| `Admission.CommitComputes` | crates/bornera-core/src/connection/core.rs:79-120 | A commit is refused by policy and changes nothing, or is accepted by both levels |
| `Admission.DropSteps` | crates/bornera-core/src/admission/permit.rs:64-71 | Dropping a permit in any state of its owner gives back exactly what it held |
| `Progress.ProgressKeeps` | crates/bornera-core/src/write/queue.rs:90-126 | An exact report keeps every fact, and the wire grows by exactly the bytes reported |
| `Removal.RemovalKeeps` | crates/bornera-core/src/connection/cancellation.rs:28-71 | Removing one record with the outcome its delivery allows keeps every fact of the run |
| `Closure.ClosureKeeps` | crates/bornera-core/src/connection/close.rs:17-64 | Closing keeps every fact of the run and leaves nothing pending |
| `Runs.StepKeeps` | crates/bornera-core/src/connection/progress.rs:12-127 | Every action on an explained owner leaves an explained owner |
| `Guarantees.OnlyOverReportBreaks` | crates/bornera-core/src/connection/integrity.rs:163-171 | In every run an owner is poisoned if and only if it was recovered or its transport claimed more bytes than a frame had left |
| `Guarantees.AuditNeverFails` | crates/bornera-core/src/connection/integrity.rs:47-84 | In every run the audit of a working owner finds nothing, and no ledger is ever poisoned |
| `Guarantees.AuditChangesNothing` | crates/bornera-core/src/connection/integrity.rs:47-53 | Audited and unaudited builds do the same in every run |
| `Guarantees.PendingIsShaped` | crates/bornera-core/src/connection/drive.rs:40-126 | In every run: a written prefix, at most one started record, then unsent ones; the queue is the held suffix in order |
| `Guarantees.ExactlyOnce` | crates/bornera-core/src/connection/close.rs:17-64 | In every run outcomes, unfinished records and recovered entries together are the accepted operations, each once |
| `Guarantees.WireIsFrames` | crates/bornera-core/src/write/queue.rs:35-151 | In every run the wire is complete frames in commit order, withdrawn ones skipped whole, then a part of the front frame |
| `Guarantees.DeliveryIsExact` | crates/bornera-core/src/connection/drive.rs:40-64 | In every run an outcome says possibly sent if and only if a positive byte count was reported for its frame |
| `Guarantees.RepliesInOrder` | crates/bornera-core/src/connection/response.rs:10-68 | In every run replies go to wholly written frames, in commit order, never past a pending operation |
| `Guarantees.LedgerConserved` | crates/bornera-core/src/admission/ledger.rs:46-189 | In every run the ledger is the sum over live permits and pending records |
| `Guarantees.OneClosure` | crates/bornera-core/src/connection/close.rs:17-70 | In every run one closure is announced exactly when the epoch stops being live, and a live drain has work |
| `Guarantees.RunsGoForward` | crates/bornera-core/src/connection/lifecycle.rs:9-50 | Phase and gate only move forward, and nothing past is undone |
| `Guarantees.CommitNeverRefusedByWriter` | crates/bornera-core/src/connection/core.rs:79-120 | In every run a refused commit was refused by the policy |
| `Guarantees.RecoveryIsExact` | crates/bornera-core/src/connection/recovery.rs:40-79 | In every run recovery hands back exactly the unfinished operations in order with their own frames, nothing unmatched, and reports divergence if and only if a refused over-report left its journal armed |
| `SlotSteps.AdvanceSlot` | crates/bornera-core/src/connection/progress.rs:52-127 | A report a frame can hold succeeds and its effects lead from the old host state to the new; a larger one breaks the owner |
| `SlotSteps.CommitSlot` | crates/bornera-core/src/connection/core.rs:79-120 | A commit returns exactly one schedule for its fresh operation, or changes nothing |
| `SlotState.NewSlotLimits` | crates/bornera/src/config/slot_limits.rs:22-53 | Limits exist if and only if one largest reply per operation fits fixed-width bytes |
| `SlotState.TimedRemove` | crates/bornera/src/transition.rs:158-168 | Swap-removing one entry with its timer keeps index and timers in bijection |
| `SlotState.RetainedFits` | crates/bornera/src/transition.rs:170-179 | A reply within its bound fits the outcome batch whenever its slot does |
| `SlotState.TimersMirror` | crates/bornera/src/transition.rs:138-168 | One timer for each pending operation at its original deadline, and no other timer |
| `SlotState.FewEvents` | crates/bornera/src/lifecycle.rs:48-72 | A stream that publishes each edge once in order has at most four |
| `Slot.ConnectionSlot.constructor` | crates/bornera/src/slot.rs:53-95 | A fresh slot is connecting, over a fresh core, with nothing scheduled or published |
| `Slot.ConnectionSlot.ArmDeadline` | crates/bornera/src/transition.rs:138-156 | Arming fails if and only if other deadlines fill the index, and then schedules nothing |
| `Slot.ConnectionSlot.Publish` | crates/bornera/src/transition.rs:170-179 | An outcome is published if and only if it fits, and is otherwise kept for recovery |
| `Slot.ConnectionSlot.PublishEvent` | crates/bornera/src/lifecycle.rs:48-72 | An edge is published if and only if the host left room, is otherwise kept for recovery where it always fits, and keeps the stream numbered and in order |
| `Slot.ConnectionSlot.InterpretEach` | crates/bornera/src/transition.rs:17-135 | Interpreting the effects of a core step never fails: no index overflow, no outcome without room, no unexpected effect |
| `Slot.ConnectionSlot.FinishClose` | crates/bornera/src/transition.rs:181-211 | Exactly a drained, open transport is granted a graceful shutdown, by the drain's own deadline; a directive already given stays |
| `Slot.ConnectionSlot.Latch` | crates/bornera/src/state.rs:41-57 | The first error is final: the directive is to drop the transport, and what was owned stays owned |
| `Slot.ConnectionSlot.Cancel` | crates/bornera/src/control.rs:126-139 | Answers by the operation's delivery, and fails only for reasons outside the slot |
| `Slot.ConnectionSlot.BeginDrain` | crates/bornera/src/control.rs:141-154 | Keeps the drain's deadline and the pending operations while there are any, or closes at once with that deadline for the shutdown |
| `Slot.ConnectionSlot.Finalize` | crates/bornera/src/control.rs:156-170 | Leaves the directive stated for every case, publishes every unfinished operation's failure, and fails for a missing shutdown deadline if and only if an open, undrained slot is closed as drained |
| `Hosting.CloseUndrained` | crates/bornera/src/transition.rs:191-203 | A slot whose transport established and that is closed as drained without a drain fails for the missing deadline |
| `Hosting.GraceUnfinished` | crates/bornera/src/control.rs:156-170 | A slot finalized as drained over an unsent operation shuts down in grace by the drain's deadline while that operation fails |
| `Hosting.ShortClaim` | crates/bornera/src/drive/application.rs:128-151 | A transport's claim of bytes it was never offered is counted as sent and the slot goes on |
| `Grace.DrainedUnfinishedOnlyByRequest` | crates/bornera-core/src/connection/close.rs:17-70 | In every run an operation fails as closed by a drain if and only if a caller asked for that closure while one was unfinished |
| `Slot.ConnectionSlot.OpenAdmission` | crates/bornera/src/control.rs:172-188 | Opens admission once, only over an open transport, and publishes that edge |
| `Slot.ConnectionSlot.SettleTransportClosed` | crates/bornera/src/slot_close.rs:40-73 | Settles if and only if the directive is ready, and then says closed exactly once |
| `Slot.ConnectionSlot.Reserve` | crates/bornera/src/admission.rs:18-41 | While its outcome has a place a permit is granted if and only if the policy grants it; a refusal leaves permits and records as they were |
| `Slot.ConnectionSlot.Commit` | crates/bornera/src/admission.rs:47-84 | A frame is accepted if and only if the policy accepts it; it is then scheduled at its own deadline, which never fails, and a refusal changes nothing |
| `Slot.ConnectionSlot.NextDeadline` | crates/bornera/src/control.rs:109-120 | The minimum over every pending operation's original deadline and the connect, drain and shutdown deadlines |
| `Slot.ConnectionSlot.TimersMirrorPending` | crates/bornera/src/transition.rs:138-168 | Between calls timers and pending records are in bijection, within capacity |
| `Slot.ConnectionSlot.PublishedOnce` | crates/bornera/src/transition.rs:170-179 | Every accepted operation's outcome is in the host's stream once, or still to come |
| `Slot.ConnectionSlot.TransportTookFrames` | crates/bornera/src/drive/application.rs:101-153 | What a transport took is the wire if and only if it never claimed bytes it was not offered but its frame had; the wire is complete accepted frames in commit order, then a part of the next |
| `Slot.ConnectionSlot.PopDue` | crates/bornera/src/drive/deadline.rs:50-57 | Takes the earliest timer, index entry included, if it is due; nothing due otherwise |
| `Slot.ConnectionSlot.DriveDeadlineOnce` | crates/bornera/src/drive/deadline.rs:23-68 | The earliest deadline strikes, a drain's before a connect's before an operation's, with its own consequence, or none is due |
| `Slot.ConnectionSlot.DriveDeadlines` | crates/bornera/src/drive/deadline.rs:17-73 | Stays within its budget, and unless that ran out or the epoch began to close nothing due is left |
| `Slot.ConnectionSlot.HasDueDeadline` | crates/bornera/src/drive/deadline.rs:75-85 | True if and only if a connect, drain or operation deadline has passed |
| `Slot.ConnectionSlot.CapturePressure` | crates/bornera/src/drive/pressure.rs:19-64 | Accepts a transport if and only if it keeps one limit within the slot's and stays within it |
| `Slot.ConnectionSlot.ValidateProgress` | crates/bornera/src/drive/transport.rs:69-85 | Accepted progress is exactly one operation within its byte budget |
| `Slot.ConnectionSlot.DriveTransportOnce` | crates/bornera/src/drive/transport.rs:17-67 | Establishes or drives the transport by one operation, a failure closing for its own reason, or finds nothing to do and changes nothing |
| `Slot.ConnectionSlot.DriveDecoderOnce` | crates/bornera/src/drive/application.rs:19-48 | Decode faults, oversized and unclassified replies each close for their reason; any other reply is applied to the core exactly as it is |
| `Slot.ConnectionSlot.DriveReadOnce` | crates/bornera/src/drive/application.rs:50-99 | What each answer of a read means: transport lost, contract broken, decode fault, or bytes for the decoder; nothing to read changes nothing |
| `Slot.ConnectionSlot.ReportWritten` | crates/bornera/src/drive/application.rs:147-152 | A report the frame can hold succeeds and the wire grows by exactly those bytes, offered or not; a larger one breaks the owner and the wire does not grow |
| `Slot.ConnectionSlot.DriveWriteOnce` | crates/bornera/src/drive/application.rs:101-153 | What each answer of a write means; what the transport took and what the core counts stay the same exactly while it claims no more than it was offered |
| `Slot.ConnectionSlot.DriveReadyOnce` | crates/bornera/src/drive/slot.rs:140-184 | Finding nothing after one round means that nothing is runnable and nothing changed |
| `Slot.ConnectionSlot.DriveIo` | crates/bornera/src/drive/slot.rs:108-138 | Stays within its budget, and an unsaturated, unclosed return leaves nothing runnable |
| `Slot.ConnectionSlot.DriveShutdownOnce` | crates/bornera/src/drive/shutdown.rs:17-83 | One step of a graceful shutdown, begun at most once and ended at once when its deadline passed |
| `Slot.ConnectionSlot.DriveCloseQuantum` | crates/bornera/src/drive/slot.rs:83-106 | Stays within its budget, and an unsaturated return leaves no runnable shutdown |
| `Slot.ConnectionSlot.DriveQuantum` | crates/bornera/src/drive/slot.rs:35-81 | Over any transport: work never exceeds the bound, failures are never the slot's own, and an unsaturated success strands no due deadline and no runnable work |
| `ReadySet.Advances` | crates/bornera/src/set_drive/ready.rs:44-106 | An entry is served, or has moved forward by exactly the places served and removed ahead of it |
| `ReadySet.ServedExactly` | crates/bornera/src/set_drive/ready.rs:44-106 | An entry that is not removed is served if and only if its place lies below the number served and removed ahead of it |
| `ReadySet.ServedInTime` | crates/bornera/src/set_drive/ready.rs:44-106 | With `k` served per full turn, an entry at position `p` is served within any `n` full turns with `p < k * n`, unless removed or the selector fails |
| `ReadySet.Play` | crates/bornera/src/set_drive.rs:21-35 | In any run of a set, turns interleaved with polls, connections, commands, retirements and recoveries, exactly those are served whose place lies below the number served and removed ahead of it, and the successful turns of the run reach as many places as they have room for |
| `ReadySet.EarlyTurn` | crates/bornera/src/set_drive/ready.rs:93-99 | A run of a set whose turn ends early for a breach, leaving an entry waiting that the turn had room for |
| `ReadySet.ConnectionSet.ReadyBound` | crates/bornera/src/set.rs:178-187 | The queue never outgrows the live connections nor these the bound |
| `ReadySet.ConnectionSet.Enqueue` | crates/bornera/src/set.rs:178-187 | Queues a live entry at the back once, exactly when its flag was clear |
| `ReadySet.ConnectionSet.IngestReadiness` | crates/bornera/src/set_drive.rs:92-121 | Readiness of a live connection's transport queues it; every other event is only counted as stale |
| `ReadySet.ConnectionSet.EnqueueCandidates` | crates/bornera/src/set_drive/ready.rs:18-42 | Afterwards everyone with a passed deadline, runnable work or a transport to release is queued, behind those who were |
| `ReadySet.ConnectionSet.DriveReady` | crates/bornera/src/set_drive/ready.rs:44-106 | The loop computes the rounds of the slots' turns: at most `k` from the front, `k` or until nobody is left when it succeeds, up to the slot that failed when it does not |
| `ReadySet.ConnectionSet.Turn` | crates/bornera/src/set_drive.rs:21-35 | Of those who were queued exactly the first `k` are served by a successful turn, and exactly those up to the breach by one that ended early; whoever was queued or asked was served or waits; it asks to run again exactly when somebody waits or input is left |
| `ReadySet.ConnectionSet.PollIo` | crates/bornera/src/set.rs:139-148 | A poll moves nobody, and fails exactly when the selector does or did |
| `ReadySet.ConnectionSet.LatchSelectorFailure` | crates/bornera/src/set_failure.rs:33-59 | The first selector failure empties the queue, clears every flag and fails every slot |
| `ReadySet.ConnectionSet.SettleConnection` | crates/bornera/src/set_settle.rs:19-49 | A settled connection leaves the queue and is over, failed or not; one that breaks its contract, or cannot announce its end, fails |
| `ReadySet.ConnectionSet.Retire` | crates/bornera/src/set_access.rs:163-183 | Removes a clean, closed connection, and only such a one, from table and queue |
| `ReadySet.ConnectionSet.Recover` | crates/bornera/src/set_recovery.rs:22-87 | Removes a failed connection, and only such a one, from table and queue even when that takes the selector down |
| `ReadySet.ConnectionSet.Abandon` | crates/bornera/src/set_recovery.rs:38-87 | Removes any live connection, running or failed, in the same way |

## Left out

- Frames whose bytes change after commit: a frame is measured once and is immutable here, so the frame-contract errors of the write queue never arise in runs.
- The ledger's key-insertion failure after a free key was found: it cannot happen in a valid table, and the model has no branch for it.
- Shared ownership of the ledger by reference counting: a permit's end is an explicit drop step (`Policy.OperationPermit.Drop`), in any order.
- `OrderedVerified` as an object of its own: it is the policy's sequence of pending records.
- Effects typed by reply payload: there is one effect type, and a reply's payload is a frame.
- `Slot.ConnectionSlot`: holds its core as a value; that the in-place core computes those values is proved in `Owner`, for the same specification functions, but the slot's methods do not call it. Permits are named by their position in the ghost history.
- `Bounded.SlotTransport` and `Bounded.FrameDriver`: the transport follows any script at all, answer by answer, and the decoder may do anything at every call; the decoder's own retained-byte check is part of that. Read bytes are counted, not carried.
- `Bounded.TimerQueue`, the event batches, the resource table and the byte budgets are small bounded specifications of code outside the repository: count and byte bounds, tokens never reused, earliest deadline first.
- Machine-word sums of the slot's counters: event sequences have at most four values, and work counts are bounded by the budget, so they are unbounded integers here.
- `ReadySet.Entry`: abstracts a slot to what the set looks at; a slot's turn and the selector answer by any script, and the facts of `Slot` are not used. Who has a passed deadline or runnable work is part of a turn's input.
- Registration when a connection is made (`crates/bornera/src/set_connect.rs`) beyond taking a fresh token: its failure paths add and remove an entry that was never queued.
- The wire-order recovery report of a slot (`recover_owned`): it wraps the core's recovery and moves the undrained batches.
- Diagnostics, snapshots, counters of stale events, display code and getters.
- The TLS adapter, TCP transport, selector, wake handles, mailbox ports, waiter and standalone wrapper, and the simulator.
- Clocks: the present is a parameter; a deadline has passed when it is at or before it.
- Liveness of time: that a host calls `DriveQuantum` again, or waits no longer than `NextDeadline`, is the host's part.
