/** The aggregate owner updated in place: policy, frame queue and recovery journal behind one
    poison latch. Each method is the in-place form of one `Core` step. */
module Owner {
  import opened Primitives
  import opened KeySet
  import opened Ledger
  import opened Operations
  import opened Writer
  import opened Journal
  import opened Recovery
  import opened Core
  import opened Policy
  import opened WireOrder
  import Machine

  class ConnectionCore {
    const machine: ConnectionMachine
    const writes: WriteQueue
    const journal: RecoveryJournal
    var poisoned: Option<CoreInvariant>
    /** Debug builds audit ownership before every step. */
    const audited: bool

    /** Everything this owner may change. */
    ghost function Repr(): set<object> {
      {this, machine, machine.ledger, machine.ledger.activeKeys, machine.ledger.activeKeys.slots,
       writes, journal, journal.operations, journal.writes}
    }

    ghost predicate Valid()
      reads Repr()
    {
      && machine.Valid() && journal.Valid()
      && journal.operations as object != journal.writes as object
      && journal.operations as object != machine.ledger.activeKeys.slots as object
      && journal.writes as object != machine.ledger.activeKeys.slots as object
    }

    ghost function Model(): CoreState
      reads Repr()
    {
      CoreState(machine.Model(), writes.Model(), journal.Model(), poisoned, audited)
    }

    constructor (epoch: Epoch, limits: Limits, operationSeed: OperationId, effectSeed: EffectId, audited: bool)
      requires limits.Valid() && limits.maxOperations < CapacityFor(limits.maxOperations)
      ensures Valid() && Model() == InitialCore(epoch, limits, operationSeed, effectSeed, audited)
      ensures fresh(Repr())
    {
      machine := new ConnectionMachine(epoch, limits, operationSeed, effectSeed);
      writes := new WriteQueue(epoch, limits.maxFrames, limits.maxWriteRetained);
      journal := new RecoveryJournal(limits.maxOperations, limits.maxFrames);
      poisoned := None;
      this.audited := audited;
    }

    // --------------------------------------------------------------- health

    method PoisonWith(source: CoreInvariant)
      modifies this
      ensures Model() == Poison(old(Model()), source)
    {
      if poisoned.None? {
        poisoned := Some(source);
      }
    }

    method EnsureHealthy() returns (error: Option<CoreError>)
      modifies this
      ensures (Model(), error) == Health(old(Model()))
    {
      if machine.ledger.poisoned {
        PoisonWith(ReservationAccounting);
        return Some(Broken(ReservationAccounting));
      }
      if poisoned.Some? {
        return Some(Poisoned(poisoned.value));
      }
      return None;
    }

    /** Walks the held records and the queue together. */
    method MergeViolation() returns (violation: Option<CoreInvariant>)
      ensures violation == OwnershipViolation(machine.pending, writes.frames)
    {
      var next := 0;
      for i := 0 to |machine.pending|
        invariant next <= |writes.frames|
        invariant OwnershipViolation(machine.pending, writes.frames)
               == OwnershipViolation(machine.pending[i..], writes.frames[next..])
      {
        var r := machine.pending[i];
        assert machine.pending[i..][1..] == machine.pending[i + 1..];
        if r.writeHeld {
          if next == |writes.frames| {
            return Some(MissingWrite(r.id, r.effect));
          }
          var q := writes.frames[next];
          if q.operation != r.id {
            return Some(UnexpectedWrite(q.operation, q.effect));
          }
          if q.effect != r.effect {
            return Some(WriteIdentityMismatch(r.id, r.effect, q.effect));
          }
          assert writes.frames[next..][1..] == writes.frames[next + 1..];
          next := next + 1;
        }
      }
      if next < |writes.frames| {
        return Some(UnexpectedWrite(writes.frames[next].operation, writes.frames[next].effect));
      }
      return None;
    }

    /** Health, then the ownership audit where the build has one. */
    method CheckStep() returns (error: Option<CoreError>)
      modifies this
      ensures (Model(), error) == Check(old(Model()))
    {
      error := EnsureHealthy();
      if error.Some? || !audited {
        return;
      }
      var valid := writes.AccountingIsValid();
      var violation: Option<CoreInvariant> := Some(WriteAccounting);
      if valid {
        violation := MergeViolation();
      }
      if violation.Some? {
        PoisonWith(violation.value);
        return Some(Broken(violation.value));
      }
    }

    // --------------------------------------------------------------- admission

    method Reserve(now: Moment, options: Options) returns (r: Result<Permit, ReserveError>)
      requires Valid()
      modifies Repr()
      ensures Valid() && (Model(), r) == Core.Reserve(old(Model()), now, options)
    {
      hide Check, Machine.Reserve;
      var error := CheckStep();
      if error.Some? {
        return Failure(OwnerPoisoned);
      }
      r := machine.Reserve(now, options);
    }

    /** A permit of another owner is refused before anything moves. */
    method Commit(permit: OperationPermit, frame: Frame) returns (r: Result<Transition, CommitRefusal>)
      requires Valid()
      modifies Repr(), permit
      ensures Valid()
      ensures permit.ledger == machine.ledger ==> (Model(), r) == Core.Commit(old(Model()), old(permit.Model()), frame)
      ensures permit.ledger != machine.ledger ==>
        Model() == Check(old(Model())).0
        && r == Failure(CommitRefusal.Policy(
          if Check(old(Model())).1.Some? then Machine.CommitOwnerPoisoned else Machine.ForeignPermit))
    {
      hide Check, Admit, CommitPermit;
      var error := CheckStep();
      if error.Some? {
        return Failure(CommitRefusal.Policy(Machine.CommitOwnerPoisoned));
      }
      if permit.ledger != machine.ledger || permit.epoch != machine.epoch {
        return Failure(CommitRefusal.Policy(Machine.ForeignPermit));
      }
      if !machine.gate.Admits(permit.work) {
        return Failure(CommitRefusal.Policy(Machine.CommitAdmissionClosed));
      }
      if permit.reservation.writeRetained < frame.retained {
        return Failure(CommitRefusal.Policy(Machine.FrameTooLarge));
      }
      var refusal := writes.AdmitFrame(permit.epoch, permit.operation, permit.effect, frame);
      if refusal.Some? {
        return Failure(WriterRefused(refusal.value));
      }
      var t := machine.Accept(permit, frame.retained);
      return Success(t);
    }

    method FrontWrite(maximum: nat) returns (r: Result<Option<WriteSlice>, CoreError>)
      modifies this
      ensures (Model(), r) == Core.FrontWrite(old(Model()), maximum)
    {
      hide Front;
      if poisoned.Some? {
        return Failure(Poisoned(poisoned.value));
      }
      if machine.ledger.poisoned {
        poisoned := Some(ReservationAccounting);
        return Failure(Broken(ReservationAccounting));
      }
      var slice := writes.FrontSlice(maximum);
      if slice.Failure? {
        poisoned := Some(FrameContract(slice.error));
        return Failure(Broken(FrameContract(slice.error)));
      }
      return Success(slice.value);
    }

    // --------------------------------------------------------------- reconciliation

    method DiscardOne(epoch: Epoch, effect: EffectId, operation: OperationId) returns (error: Option<CoreError>)
      requires Valid()
      modifies this, writes, journal, journal.writes
      ensures Valid() && machine.Model() == old(machine.Model())
      ensures (Model(), error) == ReconcileDiscard(old(Model()), epoch, effect, operation)
    {
      hide NoGaps, Distinct, KeysOf, Discard, RetainWrite;
      var r := writes.DiscardEffect(epoch, effect);
      if r.Failure? {
        if r.error.RetainedAccountingUnderflow? {
          PoisonWith(WriteAccounting);
          return Some(Broken(WriteAccounting));
        }
        return Some(WriteFault(r.error));
      }
      if r.value.None? {
        PoisonWith(MissingWrite(operation, effect));
        return Some(Broken(MissingWrite(operation, effect)));
      }
      var discarded := r.value.value;
      var kept := journal.Store(discarded);
      if discarded.operation != operation {
        PoisonWith(DiscardedWriteMismatch(operation, discarded.operation));
        return Some(Broken(DiscardedWriteMismatch(operation, discarded.operation)));
      }
      if !kept {
        PoisonWith(RecoveryJournalCapacity);
        return Some(Broken(RecoveryJournalCapacity));
      }
      return None;
    }

    /** Removes every frame the policy gave up and keeps the other effects for the caller. */
    method ReconcileEffects(effects: seq<Effect>) returns (r: Result<seq<Effect>, CoreError>)
      requires Valid()
      modifies this, writes, journal, journal.writes
      ensures Valid() && machine.Model() == old(machine.Model())
      ensures (Model(), r) == Reconcile(old(Model()), effects)
    {
      hide NoGaps, Distinct, KeysOf, ReconcileDiscard;
      var output: seq<Effect> := [];
      PrefixedNone(Reconcile(Model(), effects));
      assert effects[0..] == effects;
      for i := 0 to |effects|
        invariant Valid() && machine.Model() == old(machine.Model())
        invariant Reconcile(old(Model()), effects) == Prefixed(output, Reconcile(Model(), effects[i..]))
      {
        var effect := effects[i];
        assert effects[i..][0] == effect && effects[i..][1..] == effects[i + 1..];
        if effect.DiscardWrite? {
          var error := DiscardOne(effect.epoch, effect.effect, effect.operation);
          if error.Some? {
            return Failure(error.value);
          }
        } else {
          PrefixedTwice(output, effect, Reconcile(Model(), effects[i + 1..]));
          output := output + [effect];
        }
      }
      assert output + [] == output;
      return Success(output);
    }

    static ghost function Prefixed(so: seq<Effect>, r: (CoreState, Result<seq<Effect>, CoreError>))
      : (CoreState, Result<seq<Effect>, CoreError>)
    {
      (r.0, if r.1.Success? then Success(so + r.1.value) else r.1)
    }

    static lemma PrefixedNone(r: (CoreState, Result<seq<Effect>, CoreError>))
      ensures Prefixed([], r) == r
    {
      if r.1.Success? {
        assert [] + r.1.value == r.1.value;
      }
    }

    static lemma PrefixedTwice(so: seq<Effect>, e: Effect, r: (CoreState, Result<seq<Effect>, CoreError>))
      ensures Prefixed(so + [e], r)
           == Prefixed(so, (r.0, if r.1.Success? then Success([e] + r.1.value) else r.1))
    {
      if r.1.Success? {
        assert so + [e] + r.1.value == so + ([e] + r.1.value);
      }
    }

    method FinishStep(t: Transition) returns (r: Result<Transition, CoreError>)
      requires Valid()
      modifies this, journal, journal.operations, journal.writes
      ensures Valid() && machine.Model() == old(machine.Model())
      ensures (Model(), r) == Finish(old(Model()), t)
    {
      hide NoGaps, Distinct, KeysOf;
      var error := EnsureHealthy();
      if error.Some? {
        return Failure(error.value);
      }
      journal.Clear();
      return Success(t);
    }

    method SettleStep(t: Transition) returns (r: Result<Transition, CoreError>)
      requires Valid()
      modifies this, writes, journal, journal.operations, journal.writes
      ensures Valid() && machine.Model() == old(machine.Model())
      ensures (Model(), r) == Settle(old(Model()), t)
    {
      hide NoGaps, Distinct, KeysOf, Reconcile, Finish;
      var effects := ReconcileEffects(t.effects);
      if effects.Failure? {
        return Failure(effects.error);
      }
      r := FinishStep(t.(effects := effects.value));
    }

    // --------------------------------------------------------------- inputs and replies

    method BeginFullJournal() returns (error: Option<CoreError>)
      requires Valid()
      modifies this, journal, journal.operations, journal.writes
      ensures Valid() && machine.Model() == old(machine.Model())
      ensures (Model(), error) == BeginJournal(old(Model()))
    {
      hide NoGaps, Distinct, KeysOf, Begin;
      var kept := journal.BeginAll(machine.pending);
      if !kept {
        PoisonWith(RecoveryJournalCapacity);
        return Some(Broken(RecoveryJournalCapacity));
      }
      return None;
    }

    method BeginOneJournal(operation: OperationId) returns (error: Option<CoreError>)
      requires Valid()
      modifies this, journal, journal.operations, journal.writes
      ensures Valid() && machine.Model() == old(machine.Model())
      ensures (Model(), error) == BeginOperationJournal(old(Model()), operation)
    {
      hide NoGaps, Distinct, KeysOf, BeginOperation;
      var index := machine.Find(operation);
      if index.None? {
        return None;
      }
      var kept := journal.BeginOne(machine.pending[index.value], index.value);
      if !kept {
        PoisonWith(RecoveryJournalCapacity);
        return Some(Broken(RecoveryJournalCapacity));
      }
      return None;
    }

    method PrepareInputJournal(input: Input) returns (error: Option<CoreError>)
      requires Valid()
      modifies this, journal, journal.operations, journal.writes
      ensures Valid() && machine.Model() == old(machine.Model())
      ensures (Model(), error) == PrepareInput(old(Model()), input)
    {
      hide NoGaps, Distinct, KeysOf, BeginJournal, BeginOperationJournal;
      match input
      case CloseRequested(epoch, _) =>
        if epoch == machine.epoch && machine.phase.Live? {
          error := BeginFullJournal();
          return;
        }
        return None;
      case ReplyMalformed(epoch) =>
        if epoch == machine.epoch && machine.phase.Live? {
          error := BeginFullJournal();
          return;
        }
        return None;
      case Cancel(epoch, operation) =>
        var index := machine.Find(operation);
        if epoch == machine.epoch && index.Some? && !machine.pending[index.value].phase.Terminal? {
          error := BeginOneJournal(operation);
          return;
        }
        return None;
      case DeadlineReached(epoch, operation, now) =>
        if epoch != machine.epoch {
          return None;
        }
        var index := machine.Find(operation);
        if index.None? || now < machine.pending[index.value].deadline {
          return None;
        }
        if machine.pending[index.value].delivery.PossiblySent? {
          error := BeginFullJournal();
        } else {
          error := BeginOneJournal(operation);
        }
      case _ => return None;
    }

    method Apply(input: Input) returns (r: Result<Transition, CoreError>)
      requires Valid()
      modifies Repr()
      ensures Valid() && (Model(), r) == Core.Apply(old(Model()), input)
    {
      hide NoGaps, Distinct, KeysOf, Check, PrepareInput, Settle, Machine.Apply;
      var error := CheckStep();
      if error.Some? {
        return Failure(error.value);
      }
      error := PrepareInputJournal(input);
      if error.Some? {
        return Failure(error.value);
      }
      var t := machine.Apply(input);
      r := SettleStep(t);
    }

    method PrepareReplyJournal(reply: InboundReply) returns (error: Option<CoreError>)
      requires Valid()
      modifies this, journal, journal.operations, journal.writes
      ensures Valid() && machine.Model() == old(machine.Model())
      ensures (Model(), error) == PrepareReply(old(Model()), reply)
    {
      hide NoGaps, Distinct, KeysOf, BeginJournal, BeginOperationJournal;
      if reply.epoch != machine.epoch || !machine.phase.Live? {
        return None;
      }
      if machine.pending == [] {
        error := BeginFullJournal();
        return;
      }
      var front := machine.pending[0];
      var validPhase := (front.phase.AwaitingReply? || front.phase.Terminal?) && !front.writeHeld;
      if !validPhase || reply.key != front.reservation.key {
        error := BeginFullJournal();
      } else {
        error := BeginOneJournal(front.id);
      }
    }

    method ApplyReply(reply: InboundReply) returns (r: Result<Transition, CoreError>)
      requires Valid()
      modifies Repr()
      ensures Valid() && (Model(), r) == Core.ApplyReply(old(Model()), reply)
    {
      hide NoGaps, Distinct, KeysOf, Check, PrepareReply, Settle, Machine.ApplyReply;
      var error := CheckStep();
      if error.Some? {
        return Failure(error.value);
      }
      error := PrepareReplyJournal(reply);
      if error.Some? {
        return Failure(error.value);
      }
      var t := machine.ApplyReply(reply);
      r := SettleStep(t);
    }

    // --------------------------------------------------------------- write progress

    method AbsorbTransition(so: seq<Effect>, t: Transition, operation: OperationId, effect: EffectId)
      returns (r: Result<seq<Effect>, CoreError>)
      requires Valid()
      modifies this, writes, journal, journal.writes
      ensures Valid() && machine.Model() == old(machine.Model())
      ensures (Model(), r) == Absorb(old(Model()), so, t, operation, effect)
    {
      hide NoGaps, Distinct, KeysOf, Reconcile;
      if !t.disposition.Applied? {
        var broken := WritePolicyMismatch(operation, effect, t.disposition);
        PoisonWith(broken);
        return Failure(Broken(broken));
      }
      var effects := ReconcileEffects(t.effects);
      if effects.Failure? {
        return effects;
      }
      return Success(so + effects.value);
    }

    /** Copies a completed frame and its record before the policy moves. */
    method JournalCompleted(q: QueuedWrite) returns (error: Option<CoreError>)
      requires Valid()
      modifies this, journal, journal.operations, journal.writes
      ensures Valid() && machine.Model() == old(machine.Model())
      ensures (Model(), error) == JournalCompletion(old(Model()), q)
    {
      hide NoGaps, Distinct, KeysOf, RetainWrite, RetainOperation;
      var kept := journal.Store(AsDiscarded(q));
      if !kept {
        PoisonWith(RecoveryJournalCapacity);
        return Some(Broken(RecoveryJournalCapacity));
      }
      var index := machine.Find(q.operation);
      if index.None? {
        PoisonWith(UnexpectedWrite(q.operation, q.effect));
        return Some(Broken(UnexpectedWrite(q.operation, q.effect)));
      }
      kept := journal.Retain(machine.pending[index.value], index.value);
      if !kept {
        PoisonWith(RecoveryJournalCapacity);
        return Some(Broken(RecoveryJournalCapacity));
      }
      return None;
    }

    /** The policy's side of one accepted report. */
    method FollowReport(epoch: Epoch, effect: EffectId, operation: OperationId, crossed: bool, complete: bool)
      returns (r: Result<Transition, CoreError>)
      requires Valid()
      modifies Repr()
      ensures Valid() && (Model(), r) == Follow(old(Model()), epoch, effect, operation, crossed, complete)
    {
      hide NoGaps, Distinct, KeysOf, Absorb, Finish, Machine.WriteStarted, Machine.WriteCompleted;
      var combined: seq<Effect> := [];
      if crossed {
        var disposition := machine.WriteStarted(epoch, operation, effect);
        var started := AbsorbTransition(combined, Ignored(disposition), operation, effect);
        if started.Failure? {
          return Failure(started.error);
        }
        combined := started.value;
      }
      if complete {
        var t := machine.WriteCompleted(epoch, operation, effect);
        var completed := AbsorbTransition(combined, t, operation, effect);
        if completed.Failure? {
          return Failure(completed.error);
        }
        combined := completed.value;
      }
      r := FinishStep(Transition(Applied, None, combined));
    }

    /** A report the writer refuses: only an over-report or broken accounting poisons. */
    static function Refused(c: CoreState, error: ProgressError): (CoreState, Result<Transition, CoreError>) {
      match error
      case RetainedAccountingUnderflow(_, _) => (Poison(c, WriteAccounting), Failure(Broken(WriteAccounting)))
      case ProgressAccountingOverflow(_, _) => (Poison(c, WriteAccounting), Failure(Broken(WriteAccounting)))
      case ExceedsRemaining(written, remaining) =>
        (Poison(c, WriteProgressContract(written, remaining)), Failure(Broken(WriteProgressContract(written, remaining))))
      case _ => (c.(journal := Cleared(c.journal)), Failure(WriteFault(error)))
    }

    method RefuseReport(error: ProgressError) returns (r: Result<Transition, CoreError>)
      requires Valid()
      modifies this, journal, journal.operations, journal.writes
      ensures Valid() && (Model(), r) == Refused(old(Model()), error)
    {
      hide NoGaps, Distinct, KeysOf;
      match error
      case RetainedAccountingUnderflow(_, _) =>
        PoisonWith(WriteAccounting);
        return Failure(Broken(WriteAccounting));
      case ProgressAccountingOverflow(_, _) =>
        PoisonWith(WriteAccounting);
        return Failure(Broken(WriteAccounting));
      case ExceedsRemaining(written, remaining) =>
        PoisonWith(WriteProgressContract(written, remaining));
        return Failure(Broken(WriteProgressContract(written, remaining)));
      case _ =>
        journal.Clear();
        return Failure(WriteFault(error));
    }

    method Advance(epoch: Epoch, effect: EffectId, count: nat) returns (r: Result<Transition, CoreError>)
      requires Valid()
      modifies Repr()
      ensures Valid() && (Model(), r) == AdvanceWrite(old(Model()), epoch, effect, count)
    {
      hide NoGaps, Distinct, KeysOf, Writer.Advance, JournalCompletion, Follow, RetainedSum, AsDiscarded, Compact;
      var error := EnsureHealthy();
      if error.Some? {
        return Failure(error.value);
      }
      journal.BeginWriteProgress();
      var progress := writes.AdvanceFront(epoch, effect, count);
      if progress.Failure? {
        r := RefuseReport(progress.error);
        return;
      }
      match progress.value
      case Pending(operation, crossed) =>
        r := FollowReport(epoch, effect, operation, crossed, false);
      case Complete(operation, q, crossed) =>
        error := JournalCompleted(q);
        if error.Some? {
          return Failure(error.value);
        }
        r := FollowReport(epoch, effect, operation, crossed, true);
    }

    // --------------------------------------------------------------- recovery

    /** Empties the policy in wire order. */
    method PopRecords() returns (records: array<Option<Record>>)
      requires Valid()
      modifies machine
      ensures Valid() && machine.Model() == old(machine.Model()).(pending := [])
      ensures fresh(records) && Compact(records[..]) == old(machine.pending) && records.Length == |old(machine.pending)|
    {
      hide NoGaps, Distinct, KeysOf, Compact;
      var popped: seq<Record> := [];
      while machine.pending != []
        invariant popped + machine.pending == old(machine.pending)
        invariant Valid() && machine.Model() == old(machine.Model()).(pending := machine.pending)
        decreases |machine.pending|
      {
        MoveFirst(popped, machine.pending);
        popped := popped + [machine.pending[0]];
        machine.pending := machine.pending[1..];
      }
      records := new Option<Record>[|popped|](i requires 0 <= i < |popped| => Some(popped[i]));
      CompactFull(records[..], popped);
    }

    static lemma MoveFirst(a: seq<Record>, b: seq<Record>)
      requires b != []
      ensures a + [b[0]] + b[1..] == a + b
    {
    }

    /** Empties the queue and the journal. */
    method TakeOwned() returns (held: seq<DiscardedWrite>, entries: seq<JournalOperation>)
      requires Valid()
      modifies writes, journal, journal.operations, journal.writes
      ensures Valid() && machine.Model() == old(machine.Model())
      ensures held == AllDiscarded(old(writes.frames)) + HeldWrites(old(journal.Model()))
      ensures entries == old(journal.ops)
      ensures writes.Model() == old(writes.Model()).(frames := [], used := 0)
      ensures journal.Model() == Cleared(old(journal.Model()))
    {
      hide NoGaps, Distinct, KeysOf;
      var frames := writes.DiscardAll();
      var journaled := journal.TakeWrites();
      entries := journal.TakeOperations();
      return frames + journaled, entries;
    }

    /** Merges what was taken and closes the account. */
    method Restitute(held: seq<DiscardedWrite>, entries: seq<JournalOperation>, journalArmed: bool)
      returns (salvage: Salvage)
      requires Valid()
      modifies machine, machine.ledger, machine.ledger.activeKeys, machine.ledger.activeKeys.slots
      ensures Valid() && fresh(salvage) && salvage.ledger == machine.ledger
      ensures machine.Model() == old(machine.Model()).(pending := [], ledger := machine.ledger.Model())
      ensures var merged := Merge(entries, old(machine.pending));
        salvage.Model() == RestoreAll(
          Restoring(held, [], old(machine.ledger.Model()), journalArmed || entries != [] || merged.diverged),
          merged.survivors)
    {
      hide NoGaps, Distinct, KeysOf, Compact, Merge, RestoreAll;
      var records := PopRecords();
      salvage := new Salvage(machine.ledger, held, journalArmed || entries != []);
      RecoverInWireOrder(entries, records, salvage);
    }

    /** Hands back everything unfinished and leaves the owner unusable. */
    method RecoverAll() returns (recovery: ConnectionRecovery)
      requires Valid()
      modifies Repr()
      ensures Valid() && (Model(), recovery) == Core.Recover(old(Model()))
    {
      hide NoGaps, Distinct, KeysOf, Merge, RestoreAll, AllDiscarded, HeldWrites, RetainedSum;
      var journalArmed := journal.armed;
      var held, entries := TakeOwned();
      var salvage := Restitute(held, entries, journalArmed);
      var diverged := salvage.diverged;
      if salvage.writes != [] {
        diverged := true;
      }
      if machine.ledger.poisoned {
        diverged := true;
      }
      if poisoned.None? {
        poisoned := Some(Recovered);
      }
      return ConnectionRecovery(machine.epoch, salvage.operations, salvage.writes, diverged);
    }
  }
}
