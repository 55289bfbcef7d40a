/** Three hosts of one slot that meet the code's own exceptions to what its documents promise. */
module Hosting {
  import opened Primitives
  import opened Ledger
  import opened Operations
  import opened Writer
  import opened Core
  import opened World
  import opened Moves
  import opened Closure
  import opened Bounded
  import opened SlotState
  import opened Slot
  import Admission
  import Machine

  // --------------------------------------------------------------- a slot whose transport just opened

  /** A transport that establishes in its first operation. */
  ghost predicate Establishes(script: nat -> TransportAnswer, limits: SlotLimits) {
    && !script(0).open && script(0).canEstablish && script(1).open
    && script(1).work.Success? && script(1).work.value.Fits(limits.chunkBytes) && !script(1).work.value.IsIdle()
  }

  /** An idle slot, its transport open and its edge taken. */
  ghost predicate Idle(slot: ConnectionSlot, transport: SlotTransport, limits: SlotLimits, epoch: Epoch)
    reads slot, transport
  {
    && slot.Valid() && !slot.failed && slot.transportState.Open? && slot.drainDeadline.None? && slot.limits == limits
    && slot.core == InitialCore(epoch, limits.connection, 0, 0, true)
    && slot.outcomes == [] && slot.lifecycle == [] && slot.world.wire == []
    && slot.Attached(transport) && transport.honest && transport.Shows(transport.script(1)) && transport.calls == 2
  }

  /** Drives an establishing transport until it is open, and takes the edge. */
  method Established(
    limits: SlotLimits, connectDeadline: Moment, decoder: FrameDriver, epoch: Epoch, script: nat -> TransportAnswer)
    returns (slot: ConnectionSlot, transport: SlotTransport)
    requires limits.Valid() && Establishes(script, limits)
    ensures fresh(slot) && fresh(transport) && transport.script == script
    ensures Idle(slot, transport, limits, epoch)
  {
    hide ConnectionSlot.Owned, InitialCore;
    slot := new ConnectionSlot(limits, connectDeadline, decoder, epoch, true);
    transport := new SlotTransport(script);
    var progressed, failure := slot.DriveTransportOnce(transport, limits.ioOperations);
    var events := slot.DrainEvents();
    var outcomes := slot.DrainOutcomes();
  }

  // --------------------------------------------------------------- one frame committed

  /** A first session operation that fits. */
  predicate Fits(limits: SlotLimits, now: Moment, options: Options, frame: Frame) {
    && options.work.Session? && now < options.deadline
    && options.retained <= limits.connection.maxRetained
    && frame.retained <= options.writeRetained <= limits.connection.maxWriteRetained
  }

  /** What the first reservation of an epoch grants. */
  function FirstPermit(limits: SlotLimits, epoch: Epoch, options: Options): Permit {
    Permit(epoch, 0, 0, options.deadline, options.work, options.completion,
      Reservation(options.retained, options.writeRetained, limits.connection.firstKey))
  }

  lemma FirstGrant(limits: SlotLimits, epoch: Epoch, now: Moment, options: Options, frame: Frame)
    requires limits.Valid() && Fits(limits, now, options, frame)
    ensures var m := InitialCore(epoch, limits.connection, 0, 0, true).machine;
      && ConnectionSlot.Granted(m, now, options) == Some(FirstPermit(limits, epoch, options))
      && m.ledger.operations == 0 && m.gate.SessionOnly? && m.phase.Live? && m.epoch == epoch && m.pending == []
    ensures InitialCore(epoch, limits.connection, 0, 0, true).writer.frames == []
  {
  }

  /** An open slot with one operation, not a byte of which is written. */
  ghost predicate Waiting(
    slot: ConnectionSlot, transport: SlotTransport, limits: SlotLimits, permit: Permit, frame: Frame)
    reads slot, transport
  {
    && slot.Valid() && !slot.failed && slot.transportState.Open? && slot.limits == limits
    && slot.core.machine.phase.Live? && slot.core.machine.gate.SessionOnly? && slot.core.machine.epoch == permit.epoch
    && slot.core.machine.pending == [Machine.Accepted(permit, frame.retained)]
    && slot.core.writer.frames == [Admission.Queued(permit, frame)]
    && slot.outcomes == [] && slot.lifecycle == [] && slot.world.wire == []
    && slot.Attached(transport) && transport.honest && transport.Shows(transport.script(1)) && transport.calls == 2
  }

  method CommitOne(slot: ConnectionSlot, transport: SlotTransport, limits: SlotLimits, epoch: Epoch, now: Moment,
      options: Options, frame: Frame)
    requires Idle(slot, transport, limits, epoch) && limits.Valid() && Fits(limits, now, options, frame)
    modifies slot
    ensures Waiting(slot, transport, limits, FirstPermit(limits, epoch, options), frame)
  {
    hide ConnectionSlot.Valid, InitialCore, ConnectionSlot.Granted;
    FirstGrant(limits, epoch, now, options, frame);
    ghost var i := |slot.world.permits|;
    var permit := slot.Reserve(now, options);
    var committed := slot.Commit(permit.value, i, frame);
    var events := slot.DrainEvents();
  }

  // --------------------------------------------------------------- three hosts

  /** Closing an open slot as drained without a drain: its shutdown has no deadline. */
  method CloseUndrained(
    limits: SlotLimits, connectDeadline: Moment, decoder: FrameDriver, epoch: Epoch, script: nat -> TransportAnswer)
    returns (slot: ConnectionSlot, r: Result<bool, EngineError>)
    requires limits.Valid() && Establishes(script, limits)
    ensures fresh(slot) && slot.failed && r == Failure(Invariant(MissingShutdownDeadline))
  {
    hide ConnectionSlot.Valid, InitialCore, SlotTransport.Shows;
    var transport;
    slot, transport := Established(limits, connectDeadline, decoder, epoch, script);
    r := slot.Finalize(CloseReason.Drained);
  }

  /** Closing a draining slot as drained before it is: the transport shuts down in grace, by the drain's
      deadline, while an operation that never reached it fails as closed by a drain. */
  method GraceUnfinished(
    limits: SlotLimits, connectDeadline: Moment, decoder: FrameDriver, epoch: Epoch, script: nat -> TransportAnswer,
    now: Moment, options: Options, frame: Frame, deadline: Moment)
    returns (slot: ConnectionSlot, r: Result<bool, EngineError>)
    requires limits.Valid() && Establishes(script, limits) && Fits(limits, now, options, frame)
    ensures fresh(slot) && slot.Valid() && !slot.failed && r == Success(true)
    ensures slot.closeRequest == Some(CoreClose(Drained, SlotState.Pending(deadline)))
    ensures slot.outcomes == [EngineOutcome(epoch, 0, Failed(ConnectionClosed(Drained), NotSent))]
  {
    hide ConnectionSlot.Valid, InitialCore, SlotTransport.Shows, ClosingTrace, Publications;
    var transport;
    slot, transport := Established(limits, connectDeadline, decoder, epoch, script);
    CommitOne(slot, transport, limits, epoch, now, options, frame);
    var begun := slot.BeginDrain(deadline);
    var events := slot.DrainEvents();
    var outcomes := slot.DrainOutcomes();
    ClosingOne(slot.core.machine, FirstPermit(limits, epoch, options), frame.retained);
    r := slot.Finalize(CloseReason.Drained);
  }

  lemma ClosingOne(m: Machine.MachineState, permit: Permit, retained: U64)
    requires m.pending == [Machine.Accepted(permit, retained)]
    ensures Publications(ClosingTrace(m, Drained, None))
      == [EngineOutcome(m.epoch, permit.operation, Failed(ConnectionClosed(Drained), NotSent))]
  {
    hide Visible, Publications;
    var r := m.pending[0];
    var publish := PublishOutcome(m.epoch, r.id, Failed(ConnectionClosed(Drained), NotSent));
    var close, cancel, discard := CloseEpoch(m.epoch, Drained), CancelDeadline(m.epoch, r.id),
      DiscardWrite(m.epoch, r.effect, r.id);
    assert m.pending[..0] == [];
    assert Machine.RecordCloseEffects(m.epoch, Drained, None, r) == [cancel, discard, publish];
    assert Machine.CloseEffects(m.epoch, Drained, None, m.pending) == [cancel, discard, publish];
    VisibleThree(cancel, discard, publish);
    PublishedLast(close, cancel, publish);
    assert ClosingTrace(m, Drained, None) == [close, cancel, publish];
  }

  lemma VisibleThree(cancel: Effect, discard: Effect, publish: Effect)
    requires cancel.CancelDeadline? && discard.DiscardWrite? && publish.PublishOutcome?
    ensures Visible([cancel, discard, publish]) == [cancel, publish]
  {
    VisibleConcat([cancel], [discard, publish]);
    VisibleConcat([discard], [publish]);
    assert [cancel] + [discard, publish] == [cancel, discard, publish] && [discard] + [publish] == [discard, publish];
  }

  lemma PublishedLast(close: Effect, cancel: Effect, publish: Effect)
    requires close.CloseEpoch? && cancel.CancelDeadline? && publish.PublishOutcome?
    ensures Publications([close, cancel, publish]) == [EngineOutcome(publish.epoch, publish.operation, publish.outcome)]
  {
    PublicationsConcat([close], [cancel, publish]);
    PublicationsConcat([cancel], [publish]);
    assert [close] + [cancel, publish] == [close, cancel, publish] && [cancel] + [publish] == [cancel, publish];
  }

  /** A transport that claims bytes it was never offered, though the frame has them: the slot counts them,
      and nothing tells it that they were not taken. */
  method ShortClaim(
    limits: SlotLimits, connectDeadline: Moment, decoder: FrameDriver, epoch: Epoch, script: nat -> TransportAnswer,
    now: Moment, options: Options, frame: Frame, count: nat)
    returns (slot: ConnectionSlot, transport: SlotTransport)
    requires limits.Valid() && Establishes(script, limits) && Fits(limits, now, options, frame)
    requires script(1).canWrite && script(2).io == MovedBytes(count) && limits.chunkBytes < count <= |frame.bytes|
    ensures fresh(slot) && slot.Valid() && !slot.failed && slot.world.wire == frame.bytes[..count]
    ensures fresh(transport) && transport.script == script && |transport.accepted| < count
  {
    hide ConnectionSlot.Owned, ConnectionSlot.Staged, InitialCore, ConnectionSlot.WroteTo, ConnectionSlot.Sight, Quiet;
    slot, transport := Established(limits, connectDeadline, decoder, epoch, script);
    CommitOne(slot, transport, limits, epoch, now, options, frame);
    var progressed, failure := slot.DriveWriteOnce(transport);
  }
}
