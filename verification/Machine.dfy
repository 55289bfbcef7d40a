/** Deterministic policy of one connection epoch: admission, matching, cancellation, deadlines,
    replies, drain and closure. Functions give each step; the class in `Policy` performs it in place. */
module Machine {
  import opened Primitives
  import opened KeySet
  import opened Ledger
  import opened Operations

  datatype MachineState = MachineState(
    epoch: Epoch, phase: ConnectionPhase, gate: AdmissionGate, closeReason: Option<CloseReason>,
    nextOperation: Option<OperationId>, nextEffect: Option<EffectId>,
    ledger: LedgerState, pending: seq<Record>)

  datatype CommitErrorKind = ForeignPermit | CommitAdmissionClosed | FrameTooLarge | CommitOwnerPoisoned

  /** An operation whose failure at closure differs from the others'. */
  datatype Blame = Blame(operation: OperationId, failure: OperationFailure)

  function InitialMachine(
    epoch: Epoch, limits: Limits, operationSeed: OperationId, effectSeed: EffectId): MachineState {
    MachineState(epoch, Live, SessionOnly, None, Some(operationSeed), Some(effectSeed), InitialLedger(limits), [])
  }

  function Successor(id: U64): Option<U64> {
    if id == U64_MAX then None else Some(id + 1)
  }

  /** Atomic reservation of every resource an operation needs, identities included. */
  function Reserve(m: MachineState, now: Moment, options: Options)
    : (MachineState, Result<Permit, ReserveError>)
    requires m.ledger.limits.Valid() && m.ledger.limits.InSpace(m.ledger.nextKey)
  {
    if !m.gate.Admits(options.work) then (m, Failure(AdmissionClosed))
    else if options.deadline <= now then (m, Failure(ReserveError.DeadlineElapsed))
    else if m.nextOperation.None? || m.nextEffect.None? then (m, Failure(IdentityExhausted))
    else
      var (ledger, r) := ReserveIn(m.ledger, options.retained, options.writeRetained);
      if r.Failure? then (m.(ledger := ledger), Failure(r.error))
      else
        (m.(ledger := ledger, nextOperation := Successor(m.nextOperation.value),
            nextEffect := Successor(m.nextEffect.value)),
         Success(Permit(m.epoch, m.nextOperation.value, m.nextEffect.value, options.deadline,
                        options.work, options.completion, r.value)))
  }

  function CommitFailure(m: MachineState, permit: Permit, frameRetained: nat): Option<CommitErrorKind> {
    if permit.epoch != m.epoch then Some(ForeignPermit)
    else if !m.gate.Admits(permit.work) then Some(CommitAdmissionClosed)
    else if permit.reservation.writeRetained < frameRetained then Some(FrameTooLarge)
    else None
  }

  function Accepted(permit: Permit, frameRetained: U64): Record {
    Record(permit.operation, permit.effect, permit.deadline,
           permit.reservation.(writeRetained := frameRetained),
           Queued, permit.completion, NotSent, true)
  }

  function Commit(m: MachineState, permit: Permit, frameRetained: U64): (MachineState, Transition) {
    (m.(ledger := CommitPermit(m.ledger, permit.reservation, frameRetained),
        pending := m.pending + [Accepted(permit, frameRetained)]),
     Transition(Applied, None, [ScheduleDeadline(m.epoch, permit.operation, permit.deadline)]))
  }

  // --------------------------------------------------------------- closure

  function ClosedFailure(reason: CloseReason, blame: Option<Blame>, r: Record): OperationFailure {
    if blame.Some? && blame.value.operation == r.id then blame.value.failure else ConnectionClosed(reason)
  }

  function RecordCloseEffects(epoch: Epoch, reason: CloseReason, blame: Option<Blame>, r: Record): seq<Effect> {
    [CancelDeadline(epoch, r.id)]
    + (if r.writeHeld then [DiscardWrite(epoch, r.effect, r.id)] else [])
    + (if r.phase.Terminal? then []
       else [PublishOutcome(epoch, r.id, Failed(ClosedFailure(reason, blame, r), r.delivery))])
  }

  function CloseEffects(epoch: Epoch, reason: CloseReason, blame: Option<Blame>, pending: seq<Record>): seq<Effect> {
    if pending == [] then []
    else CloseEffects(epoch, reason, blame, pending[..|pending| - 1])
         + RecordCloseEffects(epoch, reason, blame, pending[|pending| - 1])
  }

  function ReleaseEach(l: LedgerState, pending: seq<Record>): LedgerState {
    if pending == [] then l
    else
      var last := pending[|pending| - 1];
      Release(ReleaseEach(l, pending[..|pending| - 1]), last.reservation, last.writeHeld, false)
  }

  function Close(m: MachineState, reason: CloseReason, blame: Option<Blame>): (MachineState, seq<Effect>) {
    if !m.phase.Live? then (m, [])
    else
      (m.(gate := GateClosed, phase := Closing, closeReason := Some(reason), pending := [],
          ledger := ReleaseEach(m.ledger, m.pending)),
       [CloseEpoch(m.epoch, reason)] + CloseEffects(m.epoch, reason, blame, m.pending))
  }

  function FinishDrain(m: MachineState): (MachineState, seq<Effect>) {
    if m.gate.Draining? && m.pending == [] then Close(m, Drained, None) else (m, [])
  }

  /** Appends the closure of a finished drain to a transition. */
  function Drain(m: MachineState, t: Transition): (MachineState, Transition) {
    var (after, effects) := FinishDrain(m);
    (after, t.(effects := t.effects + effects))
  }

  /** The machine without its record at `i`, whose capacity it releases. */
  function Without(m: MachineState, i: nat): MachineState
    requires i < |m.pending|
  {
    m.(pending := RemoveAt(m.pending, i),
       ledger := Release(m.ledger, m.pending[i].reservation, m.pending[i].writeHeld, false))
  }

  // --------------------------------------------------------------- inputs

  function Open(m: MachineState, epoch: Epoch): (MachineState, Transition) {
    if epoch != m.epoch then (m, Ignored(IgnoredStaleEpoch))
    else if m.phase.Live? && m.gate.SessionOnly? then (m.(gate := AdmissionGate.Open), Ignored(Applied))
    else (m, Ignored(IgnoredInvalidPhase))
  }

  function CancelOperation(m: MachineState, epoch: Epoch, operation: OperationId): (MachineState, Transition) {
    if epoch != m.epoch then (m, Transition(IgnoredStaleEpoch, Some(CancelNoOp), []))
    else
      var index := IndexOf(m.pending, operation);
      if index.None? then (m, Transition(IgnoredUnknownOperation, Some(CancelNoOp), []))
      else
        var r := m.pending[index.value];
        if r.phase.Terminal? then (m, Transition(AlreadyTerminal, Some(CancelNoOp), []))
        else if r.delivery.NotSent? then
          Drain(Without(m, index.value),
                Transition(Applied, Some(CancelledNotSent),
                  (if r.writeHeld then [DiscardWrite(m.epoch, r.effect, operation)] else [])
                  + [CancelDeadline(m.epoch, operation),
                     PublishOutcome(m.epoch, operation, Cancelled(NotSent))]))
        else
          (m.(pending := m.pending[index.value := r.(phase := Terminal)]),
           Transition(Applied, Some(ObservationCancelled(PossiblySent)),
                      [PublishOutcome(m.epoch, operation, Cancelled(PossiblySent))]))
  }

  function ReachDeadline(
    m: MachineState, epoch: Epoch, operation: OperationId, now: Moment): (MachineState, Transition) {
    if epoch != m.epoch then (m, Ignored(IgnoredStaleEpoch))
    else
      var index := IndexOf(m.pending, operation);
      if index.None? then (m, Ignored(IgnoredUnknownOperation))
      else
        var r := m.pending[index.value];
        if now < r.deadline then
          (m, Transition(Applied, None, [ScheduleDeadline(m.epoch, operation, r.deadline)]))
        else if r.delivery.PossiblySent? then
          var (after, effects) := Close(m, DeadlineAfterPossibleSend, None);
          (after, Transition(Applied, None, effects))
        else
          Drain(Without(m, index.value),
                Transition(Applied, None,
                  (if r.writeHeld then [DiscardWrite(m.epoch, r.effect, operation)] else [])
                  + [CancelDeadline(m.epoch, operation),
                     PublishOutcome(m.epoch, operation, Failed(OperationFailure.DeadlineElapsed, NotSent))]))
  }

  function Faulted(m: MachineState, reason: CloseReason, blame: Option<Blame>): (MachineState, Transition) {
    var (after, effects) := Close(m, reason, blame);
    (after, Transition(Fault, None, effects))
  }

  function Malformed(m: MachineState, epoch: Epoch): (MachineState, Transition) {
    if epoch != m.epoch then (m, Ignored(IgnoredStaleEpoch))
    else if !m.phase.Live? then (m, Ignored(IgnoredInvalidPhase))
    else Faulted(m, MalformedReply, None)
  }

  function StartDrain(m: MachineState, epoch: Epoch): (MachineState, Transition) {
    if epoch != m.epoch then (m, Ignored(IgnoredStaleEpoch))
    else if !m.phase.Live? || m.gate.GateClosed? || m.gate.Draining? then (m, Ignored(IgnoredInvalidPhase))
    else Drain(m.(gate := Draining), Ignored(Applied))
  }

  function RequestClose(m: MachineState, epoch: Epoch, reason: CloseReason): (MachineState, Transition) {
    if epoch != m.epoch then (m, Ignored(IgnoredStaleEpoch))
    else if !m.phase.Live? then (m, Ignored(IgnoredInvalidPhase))
    else
      var (after, effects) := Close(m, reason, None);
      (after, Transition(Applied, None, effects))
  }

  function ConfirmClosed(m: MachineState, epoch: Epoch): (MachineState, Transition) {
    if epoch != m.epoch then (m, Ignored(IgnoredStaleEpoch))
    else if !m.phase.Closing? then (m, Ignored(IgnoredInvalidPhase))
    else (m.(phase := Closed, gate := GateClosed), Ignored(Applied))
  }

  function Apply(m: MachineState, input: Input): (MachineState, Transition) {
    match input
    case OpenAdmission(epoch) => Open(m, epoch)
    case Cancel(epoch, operation) => CancelOperation(m, epoch, operation)
    case DeadlineReached(epoch, operation, now) => ReachDeadline(m, epoch, operation, now)
    case ReplyMalformed(epoch) => Malformed(m, epoch)
    case BeginDrain(epoch) => StartDrain(m, epoch)
    case CloseRequested(epoch, reason) => RequestClose(m, epoch, reason)
    case EpochClosed(epoch) => ConfirmClosed(m, epoch)
  }

  /** A front record can own a reply once its whole frame left the writer. */
  predicate AwaitsReply(r: Record) {
    (r.phase.AwaitingReply? || r.phase.Terminal?) && !r.writeHeld
  }

  function ApplyReply(m: MachineState, reply: InboundReply): (MachineState, Transition) {
    if reply.epoch != m.epoch then (m, Ignored(IgnoredStaleEpoch))
    else if !m.phase.Live? then (m, Ignored(IgnoredInvalidPhase))
    else if m.pending == [] || !AwaitsReply(m.pending[0]) then Faulted(m, UnexpectedReply, None)
    else
      var front := m.pending[0];
      var expected := front.reservation.key;
      if reply.key != expected then
        Faulted(m, MatchKeyMismatch(expected, reply.key),
                Some(Blame(front.id, ReplyKeyMismatch(expected, reply.key))))
      else
        Drain(m.(pending := RemoveAt(m.pending, 0), ledger := Release(m.ledger, front.reservation, false, false)),
              Transition(Applied, None,
                [CancelDeadline(m.epoch, front.id)]
                + (if front.phase.Terminal? then []
                   else [PublishOutcome(m.epoch, front.id, Reply(reply.payload))])))
  }

  // --------------------------------------------------------------- write progress

  function WriteStarted(m: MachineState, epoch: Epoch, operation: OperationId, effect: EffectId)
    : (MachineState, Disposition)
  {
    if epoch != m.epoch then (m, IgnoredStaleEpoch)
    else
      var index := IndexOf(m.pending, operation);
      if index.None? then (m, IgnoredUnknownOperation)
      else
        var r := m.pending[index.value];
        if r.phase.Terminal? then (m, AlreadyTerminal)
        else if r.effect != effect then (m, IgnoredStaleEffect)
        else if !r.phase.Queued? then (m, IgnoredInvalidPhase)
        else (m.(pending := m.pending[index.value := r.(delivery := PossiblySent, phase := Writing)]), Applied)
  }

  function WriteCompleted(m: MachineState, epoch: Epoch, operation: OperationId, effect: EffectId)
    : (MachineState, Transition)
  {
    if epoch != m.epoch then (m, Ignored(IgnoredStaleEpoch))
    else
      var index := IndexOf(m.pending, operation);
      if index.None? then (m, Ignored(IgnoredUnknownOperation))
      else
        var r := m.pending[index.value];
        if r.effect != effect then (m, Ignored(IgnoredStaleEffect))
        else if r.phase.AwaitingReply? || !r.writeHeld then (m, Ignored(IgnoredInvalidPhase))
        else
          var ledger := ReleaseWrite(m.ledger, r.reservation.writeRetained);
          if r.completion.ReplyExpected? then
            (m.(ledger := ledger,
                pending := m.pending[index.value :=
                  r.(phase := if r.phase.Terminal? then Terminal else AwaitingReply, writeHeld := false)]),
             Ignored(Applied))
          else
            Drain(m.(pending := RemoveAt(m.pending, index.value),
                     ledger := Release(ledger, r.reservation, false, false)),
                  Transition(Applied, None,
                    [CancelDeadline(m.epoch, operation)]
                    + (if r.phase.Terminal? then []
                       else [PublishOutcome(m.epoch, operation, WriteDone(r.delivery))])))
  }
}
