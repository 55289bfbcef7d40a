/** Operations, frames, inputs and effects of one connection epoch. */
module Operations {
  import opened Primitives
  import opened KeySet
  import opened Ledger

  type OperationId = U64
  type EffectId = U64
  type Epoch = U64
  type Moment = nat

  /** What the local connection can prove about bytes it handed to the transport. */
  datatype Delivery = NotSent | PossiblySent

  function Weaken(policy: Delivery, writer: Delivery): (r: Delivery)
    ensures r.NotSent? <==> policy.NotSent? && writer.NotSent?
  {
    if policy.PossiblySent? || writer.PossiblySent? then PossiblySent else NotSent
  }

  datatype CompletionMode = ReplyExpected | CompleteOnWrite
  datatype OperationPhase = Queued | Writing | AwaitingReply | Terminal
  datatype AdmissionClass = Session | Regular
  datatype ConnectionPhase = Live | Closing | Closed

  datatype AdmissionGate = SessionOnly | Open | Draining | GateClosed
  {
    predicate Admits(work: AdmissionClass) {
      this == Open || (this == SessionOnly && work == Session)
    }
  }

  datatype CloseReason =
    | Drained | Requested | DeadlineAfterPossibleSend | TransportLost | ConnectFailed
    | ConnectTimedOut | UnexpectedReply | MalformedReply | InboundRetainedCapacity
    | MatchKeyMismatch(expected: Key, received: Key)

  datatype OperationFailure =
    | DeadlineElapsed
    | ConnectionClosed(reason: CloseReason)
    | ReplyKeyMismatch(expected: Key, received: Key)

  /** A complete frame: its bytes never change while it is owned. */
  datatype Frame = Frame(bytes: seq<Byte>, retained: U64)

  datatype OperationOutcome =
    | Reply(payload: Frame)
    | WriteDone(delivery: Delivery)
    | Failed(failure: OperationFailure, delivery: Delivery)
    | Cancelled(delivery: Delivery)

  /** An accepted operation, kept in wire order by the policy. */
  datatype Record = Record(
    id: OperationId, effect: EffectId, deadline: Moment, reservation: Reservation,
    phase: OperationPhase, completion: CompletionMode, delivery: Delivery, writeHeld: bool)

  datatype Effect =
    | ScheduleDeadline(epoch: Epoch, operation: OperationId, deadline: Moment)
    | DiscardWrite(epoch: Epoch, effect: EffectId, operation: OperationId)
    | CancelDeadline(epoch: Epoch, operation: OperationId)
    | CloseEpoch(epoch: Epoch, reason: CloseReason)
    | PublishOutcome(epoch: Epoch, operation: OperationId, outcome: OperationOutcome)

  datatype Disposition =
    | Applied | IgnoredStaleEpoch | IgnoredUnknownOperation | IgnoredStaleEffect
    | AlreadyTerminal | IgnoredInvalidPhase | Fault

  datatype CancelOutcome = CancelledNotSent | ObservationCancelled(delivery: Delivery) | CancelNoOp

  datatype Transition = Transition(
    disposition: Disposition, cancelled: Option<CancelOutcome>, effects: seq<Effect>)

  function Ignored(disposition: Disposition): Transition {
    Transition(disposition, None, [])
  }

  datatype Input =
    | OpenAdmission(epoch: Epoch)
    | Cancel(epoch: Epoch, operation: OperationId)
    | DeadlineReached(epoch: Epoch, operation: OperationId, now: Moment)
    | ReplyMalformed(epoch: Epoch)
    | BeginDrain(epoch: Epoch)
    | CloseRequested(epoch: Epoch, reason: CloseReason)
    | EpochClosed(epoch: Epoch)

  datatype InboundReply = InboundReply(epoch: Epoch, key: Key, payload: Frame)

  datatype Options = Options(
    deadline: Moment, work: AdmissionClass, retained: U64, writeRetained: U64, completion: CompletionMode)

  /** An affine reservation: every resource one operation needs before its frame is prepared. */
  datatype Permit = Permit(
    epoch: Epoch, operation: OperationId, effect: EffectId, deadline: Moment,
    work: AdmissionClass, completion: CompletionMode, reservation: Reservation)

  /** Position of the first record with this identity. */
  function IndexOf(pending: seq<Record>, id: OperationId): (r: Option<nat>)
    ensures r.Some? ==> r.value < |pending| && pending[r.value].id == id
    ensures r.Some? ==> forall j :: 0 <= j < r.value ==> pending[j].id != id
    ensures r.None? ==> forall j :: 0 <= j < |pending| ==> pending[j].id != id
  {
    if pending == [] then None
    else if pending[0].id == id then Some(0)
    else
      var rest := IndexOf(pending[1..], id);
      if rest.Some? then Some(rest.value + 1) else None
  }

  ghost predicate DistinctIds(pending: seq<Record>) {
    forall i, j :: 0 <= i < j < |pending| ==> pending[i].id != pending[j].id
  }
}
