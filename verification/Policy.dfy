/** The policy owner updated in place: permits that share its ledger, and the machine that admits,
    matches, cancels, drains and closes. Each method is the in-place form of one `Machine` step. */
module Policy {
  import opened Primitives
  import opened KeySet
  import opened Ledger
  import opened Operations
  import Machine

  /** An affine reservation: it either becomes an operation or gives everything back. */
  class OperationPermit {
    const ledger: ReservationLedger
    const epoch: Epoch
    const operation: OperationId
    const effect: EffectId
    const deadline: Moment
    const work: AdmissionClass
    const completion: CompletionMode
    var reservation: Reservation
    var active: bool

    function Model(): Permit
      reads this
    {
      Permit(epoch, operation, effect, deadline, work, completion, reservation)
    }

    constructor (ledger: ReservationLedger, p: Permit)
      ensures this.ledger == ledger && Model() == p && active
    {
      this.ledger := ledger;
      epoch, operation, effect, deadline := p.epoch, p.operation, p.effect, p.deadline;
      work, completion, reservation, active := p.work, p.completion, p.reservation, true;
    }

    method CommitFrame(actual: U64)
      requires ledger.Valid()
      modifies this, ledger
      ensures ledger.Valid() && ledger.Model() == CommitPermit(old(ledger.Model()), old(reservation), actual)
      ensures reservation == old(reservation).(writeRetained := actual) && !active
    {
      ledger.Commit(reservation, actual);
      reservation, active := reservation.(writeRetained := actual), false;
    }

    /** Rolls back once; a committed or already dropped permit gives nothing back. */
    method Drop()
      requires ledger.Valid()
      modifies this, ledger, ledger.activeKeys, ledger.activeKeys.slots
      ensures ledger.Valid() && !active && reservation == old(reservation)
      ensures ledger.Model() == if old(active) then Release(old(ledger.Model()), reservation, true,
          true) else old(ledger.Model())
    {
      if active {
        ledger.ReleaseAll(reservation, true, true);
        active := false;
      }
    }
  }

  class ConnectionMachine {
    const epoch: Epoch
    var phase: ConnectionPhase
    var gate: AdmissionGate
    var closeReason: Option<CloseReason>
    var nextOperation: Option<OperationId>
    var nextEffect: Option<EffectId>
    const ledger: ReservationLedger
    var pending: seq<Record>

    ghost predicate Valid()
      reads this, ledger, ledger.activeKeys, ledger.activeKeys.slots
    {
      ledger.Valid()
    }

    ghost function Model(): Machine.MachineState
      reads this, ledger, ledger.activeKeys, ledger.activeKeys.slots
    {
      Machine.MachineState(epoch, phase, gate, closeReason, nextOperation, nextEffect, ledger.Model(), pending)
    }

    constructor (epoch: Epoch, limits: Limits, operationSeed: OperationId, effectSeed: EffectId)
      requires limits.Valid() && limits.maxOperations < CapacityFor(limits.maxOperations)
      ensures Valid() && Model() == Machine.InitialMachine(epoch, limits, operationSeed, effectSeed)
      ensures fresh(ledger) && fresh(ledger.activeKeys) && fresh(ledger.activeKeys.slots)
    {
      this.epoch, phase, gate, closeReason := epoch, Live, SessionOnly, None;
      nextOperation, nextEffect := Some(operationSeed), Some(effectSeed);
      ledger := new ReservationLedger(limits);
      pending := [];
    }

    method Find(id: OperationId) returns (index: Option<nat>)
      ensures index == IndexOf(pending, id)
    {
      for i := 0 to |pending|
        invariant forall j :: 0 <= j < i ==> pending[j].id != id
      {
        if pending[i].id == id {
          return Some(i);
        }
      }
      return None;
    }

    method Reserve(now: Moment, options: Options) returns (r: Result<Permit, ReserveError>)
      requires Valid()
      modifies this, ledger, ledger.activeKeys, ledger.activeKeys.slots
      ensures Valid() && (Model(), r) == Machine.Reserve(old(Model()), now, options)
    {
      hide NoGaps, Distinct, KeysOf, ReserveIn;
      if !gate.Admits(options.work) {
        return Failure(AdmissionClosed);
      }
      if options.deadline <= now {
        return Failure(ReserveError.DeadlineElapsed);
      }
      if nextOperation.None? || nextEffect.None? {
        return Failure(IdentityExhausted);
      }
      var reserved := ledger.Reserve(options.retained, options.writeRetained);
      if reserved.Failure? {
        return Failure(reserved.error);
      }
      var operation, effect := nextOperation.value, nextEffect.value;
      nextOperation, nextEffect := Machine.Successor(operation), Machine.Successor(effect);
      return Success(Permit(epoch, operation, effect, options.deadline, options.work, options.completion, reserved.value));
    }

    method Accept(permit: OperationPermit, frameRetained: U64) returns (t: Transition)
      requires Valid() && permit.ledger == ledger
      modifies this, permit, ledger
      ensures Valid() && !permit.active
      ensures (Model(), t) == Machine.Commit(old(Model()), old(permit.Model()), frameRetained)
    {
      hide NoGaps, Distinct, KeysOf, CommitPermit;
      permit.CommitFrame(frameRetained);
      pending := pending + [Record(permit.operation, permit.effect, permit.deadline, permit.reservation,
                                   Queued, permit.completion, NotSent, true)];
      return Transition(Applied, None, [ScheduleDeadline(epoch, permit.operation, permit.deadline)]);
    }

    // --------------------------------------------------------------- closure

    /** What closing says about one record. */
    method Announce(reason: CloseReason, blame: Option<Machine.Blame>, r: Record) returns (effects: seq<Effect>)
      ensures effects == Machine.RecordCloseEffects(epoch, reason, blame, r)
    {
      effects := [CancelDeadline(epoch, r.id)];
      if r.writeHeld {
        effects := effects + [DiscardWrite(epoch, r.effect, r.id)];
      }
      if !r.phase.Terminal? {
        effects := effects + [PublishOutcome(epoch, r.id, Failed(Machine.ClosedFailure(reason, blame, r), r.delivery))];
      }
    }

    /** Pops every record in wire order, announcing and releasing each. */
    method CloseInto(reason: CloseReason, blame: Option<Machine.Blame>, so: seq<Effect>) returns (effects: seq<Effect>)
      requires Valid()
      modifies this, ledger, ledger.activeKeys, ledger.activeKeys.slots
      ensures Valid() && Model() == Machine.Close(old(Model()), reason, blame).0
      ensures effects == so + Machine.Close(old(Model()), reason, blame).1
    {
      hide NoGaps, Distinct, KeysOf, Release, Machine.RecordCloseEffects;
      if !phase.Live? {
        return so;
      }
      ghost var all := pending;
      gate, phase, closeReason := GateClosed, Closing, Some(reason);
      effects := so + [CloseEpoch(epoch, reason)];
      ghost var i := 0;
      while pending != []
        invariant i <= |all| && pending == all[i..] && Valid()
        invariant gate == GateClosed && phase == Closing && closeReason == Some(reason)
        invariant nextOperation == old(nextOperation) && nextEffect == old(nextEffect)
        invariant ledger.Model() == Machine.ReleaseEach(old(ledger.Model()), all[..i])
        invariant effects == so + ([CloseEpoch(epoch, reason)] + Machine.CloseEffects(epoch, reason, blame, all[..i]))
        decreases |pending|
      {
        var r := pending[0];
        pending := pending[1..];
        var here := Announce(reason, blame, r);
        effects := effects + here;
        ledger.ReleaseAll(r.reservation, r.writeHeld, false);
        ClosedOne(epoch, reason, blame, old(ledger.Model()), all, i);
        i := i + 1;
      }
      assert all[..|all|] == all;
    }

    static lemma ClosedOne(
      epoch: Epoch, reason: CloseReason, blame: Option<Machine.Blame>, l: LedgerState, all: seq<Record>, i: nat)
      requires i < |all|
      ensures Machine.CloseEffects(epoch, reason, blame, all[..i + 1])
           == Machine.CloseEffects(epoch, reason, blame, all[..i]) + Machine.RecordCloseEffects(epoch, reason, blame, all[i])
      ensures Machine.ReleaseEach(l, all[..i + 1])
           == Release(Machine.ReleaseEach(l, all[..i]), all[i].reservation, all[i].writeHeld, false)
    {
      assert all[..i + 1][..i] == all[..i];
    }

    method FinishDrain(t: Transition) returns (r: Transition)
      requires Valid()
      modifies this, ledger, ledger.activeKeys, ledger.activeKeys.slots
      ensures Valid() && (Model(), r) == Machine.Drain(old(Model()), t)
    {
      hide Machine.Close, NoGaps, Distinct, KeysOf;
      if gate == Draining && pending == [] {
        var effects := CloseInto(Drained, None, t.effects);
        return t.(effects := effects);
      }
      assert t.effects + [] == t.effects;
      return t;
    }

    /** Takes one record out and gives back everything it still held. */
    method Remove(index: nat) returns (r: Record)
      requires Valid() && index < |pending|
      modifies this`pending, ledger, ledger.activeKeys, ledger.activeKeys.slots
      ensures Valid() && r == old(pending)[index]
      ensures Model() == Machine.Without(old(Model()), index)
    {
      hide NoGaps, Distinct, KeysOf, Release;
      r := pending[index];
      pending := RemoveAt(pending, index);
      ledger.ReleaseAll(r.reservation, r.writeHeld, false);
    }

    // --------------------------------------------------------------- inputs

    method OpenGate(from: Epoch) returns (t: Transition)
      modifies this`gate
      ensures (Model(), t) == Machine.Open(old(Model()), from)
    {
      if from != epoch {
        return Ignored(IgnoredStaleEpoch);
      }
      if phase.Live? && gate.SessionOnly? {
        gate := AdmissionGate.Open;
        return Ignored(Applied);
      }
      return Ignored(IgnoredInvalidPhase);
    }

    method Cancel(from: Epoch, operation: OperationId) returns (t: Transition)
      requires Valid()
      modifies this, ledger, ledger.activeKeys, ledger.activeKeys.slots
      ensures Valid() && (Model(), t) == Machine.CancelOperation(old(Model()), from, operation)
    {
      hide NoGaps, Distinct, KeysOf, Release, Machine.FinishDrain;
      if from != epoch {
        return Transition(IgnoredStaleEpoch, Some(CancelNoOp), []);
      }
      var index := Find(operation);
      if index.None? {
        return Transition(IgnoredUnknownOperation, Some(CancelNoOp), []);
      }
      var r := pending[index.value];
      if r.phase.Terminal? {
        return Transition(AlreadyTerminal, Some(CancelNoOp), []);
      }
      if r.delivery.NotSent? {
        r := Remove(index.value);
        var effects: seq<Effect> := [];
        if r.writeHeld {
          effects := [DiscardWrite(epoch, r.effect, operation)];
        }
        effects := effects + [CancelDeadline(epoch, operation), PublishOutcome(epoch, operation, Cancelled(NotSent))];
        t := FinishDrain(Transition(Applied, Some(CancelledNotSent), effects));
        return;
      }
      pending := pending[index.value := r.(phase := Terminal)];
      return Transition(Applied, Some(ObservationCancelled(PossiblySent)),
                        [PublishOutcome(epoch, operation, Cancelled(PossiblySent))]);
    }

    method DeadlineElapsed(from: Epoch, operation: OperationId, now: Moment) returns (t: Transition)
      requires Valid()
      modifies this, ledger, ledger.activeKeys, ledger.activeKeys.slots
      ensures Valid() && (Model(), t) == Machine.ReachDeadline(old(Model()), from, operation, now)
    {
      hide NoGaps, Distinct, KeysOf, Release, Machine.FinishDrain, Machine.Close;
      if from != epoch {
        return Ignored(IgnoredStaleEpoch);
      }
      var index := Find(operation);
      if index.None? {
        return Ignored(IgnoredUnknownOperation);
      }
      var r := pending[index.value];
      if now < r.deadline {
        return Transition(Applied, None, [ScheduleDeadline(epoch, operation, r.deadline)]);
      }
      if r.delivery.PossiblySent? {
        var closing := CloseInto(DeadlineAfterPossibleSend, None, []);
        assert [] + Machine.Close(old(Model()), DeadlineAfterPossibleSend, None).1
            == Machine.Close(old(Model()), DeadlineAfterPossibleSend, None).1;
        return Transition(Applied, None, closing);
      }
      r := Remove(index.value);
      var effects: seq<Effect> := [];
      if r.writeHeld {
        effects := [DiscardWrite(epoch, r.effect, operation)];
      }
      effects := effects + [CancelDeadline(epoch, operation),
                            PublishOutcome(epoch, operation, Failed(OperationFailure.DeadlineElapsed, NotSent))];
      t := FinishDrain(Transition(Applied, None, effects));
    }

    /** Closes the epoch for a fault of the peer. */
    method CloseFaulted(reason: CloseReason, blame: Option<Machine.Blame>) returns (t: Transition)
      requires Valid()
      modifies this, ledger, ledger.activeKeys, ledger.activeKeys.slots
      ensures Valid() && (Model(), t) == Machine.Faulted(old(Model()), reason, blame)
    {
      hide NoGaps, Distinct, KeysOf, Machine.Close;
      var effects := CloseInto(reason, blame, []);
      assert [] + Machine.Close(old(Model()), reason, blame).1 == Machine.Close(old(Model()), reason, blame).1;
      return Transition(Fault, None, effects);
    }

    method MalformedReply(from: Epoch) returns (t: Transition)
      requires Valid()
      modifies this, ledger, ledger.activeKeys, ledger.activeKeys.slots
      ensures Valid() && (Model(), t) == Machine.Malformed(old(Model()), from)
    {
      hide NoGaps, Distinct, KeysOf, Machine.Faulted;
      if from != epoch {
        return Ignored(IgnoredStaleEpoch);
      }
      if !phase.Live? {
        return Ignored(IgnoredInvalidPhase);
      }
      t := CloseFaulted(CloseReason.MalformedReply, None);
    }

    method BeginDrain(from: Epoch) returns (t: Transition)
      requires Valid()
      modifies this, ledger, ledger.activeKeys, ledger.activeKeys.slots
      ensures Valid() && (Model(), t) == Machine.StartDrain(old(Model()), from)
    {
      hide NoGaps, Distinct, KeysOf, Machine.FinishDrain;
      if from != epoch {
        return Ignored(IgnoredStaleEpoch);
      }
      if !phase.Live? || gate.GateClosed? || gate.Draining? {
        return Ignored(IgnoredInvalidPhase);
      }
      gate := Draining;
      t := FinishDrain(Ignored(Applied));
    }

    method CloseRequested(from: Epoch, reason: CloseReason) returns (t: Transition)
      requires Valid()
      modifies this, ledger, ledger.activeKeys, ledger.activeKeys.slots
      ensures Valid() && (Model(), t) == Machine.RequestClose(old(Model()), from, reason)
    {
      hide NoGaps, Distinct, KeysOf, Machine.Close;
      if from != epoch {
        return Ignored(IgnoredStaleEpoch);
      }
      if !phase.Live? {
        return Ignored(IgnoredInvalidPhase);
      }
      var effects := CloseInto(reason, None, []);
      assert [] + Machine.Close(old(Model()), reason, None).1 == Machine.Close(old(Model()), reason, None).1;
      return Transition(Applied, None, effects);
    }

    method EpochClosed(from: Epoch) returns (t: Transition)
      modifies this
      ensures (Model(), t) == Machine.ConfirmClosed(old(Model()), from)
    {
      if from != epoch {
        return Ignored(IgnoredStaleEpoch);
      }
      if !phase.Closing? {
        return Ignored(IgnoredInvalidPhase);
      }
      phase, gate := Closed, GateClosed;
      return Ignored(Applied);
    }

    method Apply(input: Input) returns (t: Transition)
      requires Valid()
      modifies this, ledger, ledger.activeKeys, ledger.activeKeys.slots
      ensures Valid() && (Model(), t) == Machine.Apply(old(Model()), input)
    {
      hide NoGaps, Distinct, KeysOf, Machine.Open, Machine.CancelOperation, Machine.ReachDeadline, Machine.Malformed,
        Machine.StartDrain, Machine.RequestClose, Machine.ConfirmClosed;
      match input
      case OpenAdmission(from) => t := OpenGate(from);
      case Cancel(from, operation) => t := Cancel(from, operation);
      case DeadlineReached(from, operation, now) => t := DeadlineElapsed(from, operation, now);
      case ReplyMalformed(from) => t := MalformedReply(from);
      case BeginDrain(from) => t := BeginDrain(from);
      case CloseRequested(from, reason) => t := CloseRequested(from, reason);
      case EpochClosed(from) => t := EpochClosed(from);
    }

    // --------------------------------------------------------------- replies and write progress

    method ApplyReply(reply: InboundReply) returns (t: Transition)
      requires Valid()
      modifies this, ledger, ledger.activeKeys, ledger.activeKeys.slots
      ensures Valid() && (Model(), t) == Machine.ApplyReply(old(Model()), reply)
    {
      hide NoGaps, Distinct, KeysOf, Release, Machine.FinishDrain, Machine.Faulted;
      if reply.epoch != epoch {
        return Ignored(IgnoredStaleEpoch);
      }
      if !phase.Live? {
        return Ignored(IgnoredInvalidPhase);
      }
      if pending == [] {
        t := CloseFaulted(UnexpectedReply, None);
        return;
      }
      var front := pending[0];
      if !(front.phase.AwaitingReply? || front.phase.Terminal?) || front.writeHeld {
        t := CloseFaulted(UnexpectedReply, None);
        return;
      }
      var expected := front.reservation.key;
      if reply.key != expected {
        t := CloseFaulted(MatchKeyMismatch(expected, reply.key),
                          Some(Machine.Blame(front.id, ReplyKeyMismatch(expected, reply.key))));
        return;
      }
      front := Remove(0);
      var effects: seq<Effect> := [CancelDeadline(epoch, front.id)];
      if !front.phase.Terminal? {
        effects := effects + [PublishOutcome(epoch, front.id, Reply(reply.payload))];
      }
      assert front.phase.Terminal? ==> effects == [CancelDeadline(epoch, front.id)] + [];
      t := FinishDrain(Transition(Applied, None, effects));
    }

    method WriteStarted(from: Epoch, operation: OperationId, effect: EffectId) returns (d: Disposition)
      modifies this`pending
      ensures (Model(), d) == Machine.WriteStarted(old(Model()), from, operation, effect)
    {
      if from != epoch {
        return IgnoredStaleEpoch;
      }
      var index := Find(operation);
      if index.None? {
        return IgnoredUnknownOperation;
      }
      var r := pending[index.value];
      if r.phase.Terminal? {
        return AlreadyTerminal;
      }
      if r.effect != effect {
        return IgnoredStaleEffect;
      }
      if !r.phase.Queued? {
        return IgnoredInvalidPhase;
      }
      pending := pending[index.value := r.(delivery := PossiblySent, phase := Writing)];
      return Applied;
    }

    method WriteCompleted(from: Epoch, operation: OperationId, effect: EffectId) returns (t: Transition)
      requires Valid()
      modifies this, ledger, ledger.activeKeys, ledger.activeKeys.slots
      ensures Valid() && (Model(), t) == Machine.WriteCompleted(old(Model()), from, operation, effect)
    {
      hide NoGaps, Distinct, KeysOf, Release, ReleaseWrite, Machine.FinishDrain;
      if from != epoch {
        return Ignored(IgnoredStaleEpoch);
      }
      var index := Find(operation);
      if index.None? {
        return Ignored(IgnoredUnknownOperation);
      }
      var r := pending[index.value];
      if r.effect != effect {
        return Ignored(IgnoredStaleEffect);
      }
      if r.phase.AwaitingReply? || !r.writeHeld {
        return Ignored(IgnoredInvalidPhase);
      }
      ledger.ReleaseFrame(r.reservation.writeRetained);
      if r.completion.ReplyExpected? {
        var next := if r.phase.Terminal? then Terminal else AwaitingReply;
        pending := pending[index.value := r.(phase := next, writeHeld := false)];
        return Ignored(Applied);
      }
      pending := RemoveAt(pending, index.value);
      var effects: seq<Effect> := [CancelDeadline(epoch, operation)];
      if !r.phase.Terminal? {
        effects := effects + [PublishOutcome(epoch, operation, WriteDone(r.delivery))];
      }
      assert r.phase.Terminal? ==> effects == [CancelDeadline(epoch, operation)] + [];
      ledger.ReleaseAll(r.reservation, false, false);
      t := FinishDrain(Transition(Applied, None, effects));
    }
  }
}
