/** The aggregate owner of one epoch: policy, writer and recovery journal, kept in agreement. */
module Core {
  import opened Primitives
  import opened KeySet
  import opened Ledger
  import opened Operations
  import opened Writer
  import opened Journal
  import opened Recovery
  import Machine

  datatype CoreInvariant =
    | FrameContract(violation: FrameViolation)
    | MissingWrite(operation: OperationId, effect: EffectId)
    | DiscardedWriteMismatch(expected: OperationId, actual: OperationId)
    | WriteIdentityMismatch(operation: OperationId, expectedEffect: EffectId, actualEffect: EffectId)
    | UnexpectedWrite(operation: OperationId, effect: EffectId)
    | WritePolicyMismatch(operation: OperationId, effect: EffectId, disposition: Disposition)
    | ReservationAccounting
    | WriteAccounting
    | WriteProgressContract(written: nat, remaining: nat)
    | RecoveryJournalCapacity
    | Recovered

  datatype CoreError = WriteFault(error: ProgressError) | Broken(source: CoreInvariant) | Poisoned(source: CoreInvariant)

  datatype CommitRefusal = Policy(kind: Machine.CommitErrorKind) | WriterRefused(failure: AdmissionFailure)

  /** `audited` builds check ownership before every step; release builds do not. */
  datatype CoreState = CoreState(
    machine: Machine.MachineState, writer: WriterState, journal: JournalState,
    poisoned: Option<CoreInvariant>, audited: bool)

  datatype ConnectionRecovery = ConnectionRecovery(
    epoch: Epoch, operations: seq<RecoveredOperation>, unmatched: seq<DiscardedWrite>, diverged: bool)

  function InitialCore(
    epoch: Epoch, limits: Limits, operationSeed: OperationId, effectSeed: EffectId, audited: bool): CoreState {
    CoreState(Machine.InitialMachine(epoch, limits, operationSeed, effectSeed),
              InitialWriter(epoch, limits.maxFrames, limits.maxWriteRetained),
              InitialJournal(limits.maxOperations, limits.maxFrames), None, audited)
  }

  // --------------------------------------------------------------- health

  function Poison(c: CoreState, source: CoreInvariant): CoreState {
    if c.poisoned.None? then c.(poisoned := Some(source)) else c
  }

  function Health(c: CoreState): (CoreState, Option<CoreError>) {
    if c.machine.ledger.poisoned then (Poison(c, ReservationAccounting), Some(Broken(ReservationAccounting)))
    else if c.poisoned.Some? then (c, Some(Poisoned(c.poisoned.value)))
    else (c, None)
  }

  /** Walks held records and queued frames together. */
  function OwnershipViolation(pending: seq<Record>, frames: seq<QueuedWrite>): Option<CoreInvariant> {
    if pending == [] then
      if frames == [] then None else Some(UnexpectedWrite(frames[0].operation, frames[0].effect))
    else
      var r := pending[0];
      if !r.writeHeld then OwnershipViolation(pending[1..], frames)
      else if frames == [] then Some(MissingWrite(r.id, r.effect))
      else if frames[0].operation != r.id then Some(UnexpectedWrite(frames[0].operation, frames[0].effect))
      else if frames[0].effect != r.effect then Some(WriteIdentityMismatch(r.id, r.effect, frames[0].effect))
      else OwnershipViolation(pending[1..], frames[1..])
  }

  function Violation(c: CoreState): Option<CoreInvariant> {
    if AccountingValid(c.writer) then OwnershipViolation(c.machine.pending, c.writer.frames)
    else Some(WriteAccounting)
  }

  /** Health, and in audited builds the ownership audit. */
  function Check(c: CoreState): (CoreState, Option<CoreError>) {
    var (c1, error) := Health(c);
    if error.Some? || !c.audited then (c1, error)
    else
      var violation := Violation(c1);
      if violation.Some? then (Poison(c1, violation.value), Some(Broken(violation.value))) else (c1, None)
  }

  // --------------------------------------------------------------- admission

  function Reserve(c: CoreState, now: Moment, options: Options): (CoreState, Result<Permit, ReserveError>)
    requires c.machine.ledger.limits.Valid() && c.machine.ledger.limits.InSpace(c.machine.ledger.nextKey)
  {
    var (c1, error) := Check(c);
    if error.Some? then (c1, Failure(OwnerPoisoned))
    else
      var (machine, r) := Machine.Reserve(c1.machine, now, options);
      (c1.(machine := machine), r)
  }

  function Commit(c: CoreState, permit: Permit, frame: Frame): (CoreState, Result<Transition, CommitRefusal>) {
    var (c1, error) := Check(c);
    if error.Some? then (c1, Failure(Policy(Machine.CommitOwnerPoisoned)))
    else
      var kind := Machine.CommitFailure(c1.machine, permit, frame.retained);
      if kind.Some? then (c1, Failure(Policy(kind.value)))
      else
        var (writer, refusal) := Admit(c1.writer, permit.epoch, permit.operation, permit.effect, frame);
        if refusal.Some? then (c1.(writer := writer), Failure(WriterRefused(refusal.value)))
        else
          var (machine, t) := Machine.Commit(c1.machine, permit, frame.retained);
          (c1.(machine := machine, writer := writer), Success(t))
  }

  function FrontWrite(c: CoreState, maximum: nat): (CoreState, Result<Option<WriteSlice>, CoreError>) {
    if c.poisoned.Some? then (c, Failure(Poisoned(c.poisoned.value)))
    else if c.machine.ledger.poisoned then
      (c.(poisoned := Some(ReservationAccounting)), Failure(Broken(ReservationAccounting)))
    else
      match Front(c.writer, maximum)
      case Success(slice) => (c, Success(slice))
      case Failure(violation) => (c.(poisoned := Some(FrameContract(violation))), Failure(Broken(FrameContract(violation))))
  }

  // --------------------------------------------------------------- reconciliation

  function ReconcileDiscard(
    c: CoreState, epoch: Epoch, effect: EffectId, operation: OperationId): (CoreState, Option<CoreError>) {
    var (writer, r) := Discard(c.writer, epoch, effect);
    var c1 := c.(writer := writer);
    match r
    case Failure(RetainedAccountingUnderflow(_, _)) => (Poison(c1, WriteAccounting), Some(Broken(WriteAccounting)))
    case Failure(error) => (c1, Some(WriteFault(error)))
    case Success(None) => (Poison(c1, MissingWrite(operation, effect)), Some(Broken(MissingWrite(operation, effect))))
    case Success(Some(d)) =>
      var (journal, kept) := RetainWrite(c1.journal, d);
      var c2 := c1.(journal := journal);
      if d.operation != operation then
        (Poison(c2, DiscardedWriteMismatch(operation, d.operation)),
         Some(Broken(DiscardedWriteMismatch(operation, d.operation))))
      else if !kept then (Poison(c2, RecoveryJournalCapacity), Some(Broken(RecoveryJournalCapacity)))
      else (c2, None)
  }

  /** Applies every frame removal the policy asked for; what remains is for the caller. */
  function Reconcile(c: CoreState, effects: seq<Effect>): (CoreState, Result<seq<Effect>, CoreError>)
    decreases |effects|
  {
    if effects == [] then (c, Success([]))
    else if effects[0].DiscardWrite? then
      var (c1, error) := ReconcileDiscard(c, effects[0].epoch, effects[0].effect, effects[0].operation);
      if error.Some? then (c1, Failure(error.value)) else Reconcile(c1, effects[1..])
    else
      var (c1, rest) := Reconcile(c, effects[1..]);
      (c1, if rest.Success? then Success([effects[0]] + rest.value) else rest)
  }

  /** Ends a step: a healthy owner forgets its journal. */
  function Finish(c: CoreState, t: Transition): (CoreState, Result<Transition, CoreError>) {
    var (c1, error) := Health(c);
    if error.Some? then (c1, Failure(error.value))
    else (c1.(journal := Cleared(c1.journal)), Success(t))
  }

  function Settle(c: CoreState, t: Transition): (CoreState, Result<Transition, CoreError>) {
    var (c1, effects) := Reconcile(c, t.effects);
    if effects.Failure? then (c1, Failure(effects.error)) else Finish(c1, t.(effects := effects.value))
  }

  // --------------------------------------------------------------- inputs

  function BeginJournal(c: CoreState): (CoreState, Option<CoreError>) {
    var (journal, kept) := Begin(c.journal, c.machine.pending);
    var c1 := c.(journal := journal);
    if kept then (c1, None) else (Poison(c1, RecoveryJournalCapacity), Some(Broken(RecoveryJournalCapacity)))
  }

  function BeginOperationJournal(c: CoreState, operation: OperationId): (CoreState, Option<CoreError>) {
    var index := IndexOf(c.machine.pending, operation);
    if index.None? then (c, None)
    else
      var (journal, kept) := BeginOperation(c.journal, c.machine.pending[index.value], index.value);
      var c1 := c.(journal := journal);
      if kept then (c1, None) else (Poison(c1, RecoveryJournalCapacity), Some(Broken(RecoveryJournalCapacity)))
  }

  function PrepareInput(c: CoreState, input: Input): (CoreState, Option<CoreError>) {
    var m := c.machine;
    match input
    case CloseRequested(epoch, _) => if epoch == m.epoch && m.phase.Live? then BeginJournal(c) else (c, None)
    case ReplyMalformed(epoch) => if epoch == m.epoch && m.phase.Live? then BeginJournal(c) else (c, None)
    case Cancel(epoch, operation) =>
      var index := IndexOf(m.pending, operation);
      if epoch == m.epoch && index.Some? && !m.pending[index.value].phase.Terminal?
      then BeginOperationJournal(c, operation) else (c, None)
    case DeadlineReached(epoch, operation, now) =>
      var index := IndexOf(m.pending, operation);
      if epoch != m.epoch || index.None? || now < m.pending[index.value].deadline then (c, None)
      else if m.pending[index.value].delivery.PossiblySent? then BeginJournal(c)
      else BeginOperationJournal(c, operation)
    case _ => (c, None)
  }

  function Apply(c: CoreState, input: Input): (CoreState, Result<Transition, CoreError>) {
    var (c1, error) := Check(c);
    if error.Some? then (c1, Failure(error.value))
    else
      var (c2, error) := PrepareInput(c1, input);
      if error.Some? then (c2, Failure(error.value))
      else
        var (machine, t) := Machine.Apply(c2.machine, input);
        Settle(c2.(machine := machine), t)
  }

  function PrepareReply(c: CoreState, reply: InboundReply): (CoreState, Option<CoreError>) {
    var m := c.machine;
    if reply.epoch != m.epoch || !m.phase.Live? then (c, None)
    else if m.pending == [] then BeginJournal(c)
    else if !Machine.AwaitsReply(m.pending[0]) || reply.key != m.pending[0].reservation.key then BeginJournal(c)
    else BeginOperationJournal(c, m.pending[0].id)
  }

  function ApplyReply(c: CoreState, reply: InboundReply): (CoreState, Result<Transition, CoreError>) {
    var (c1, error) := Check(c);
    if error.Some? then (c1, Failure(error.value))
    else
      var (c2, error) := PrepareReply(c1, reply);
      if error.Some? then (c2, Failure(error.value))
      else
        var (machine, t) := Machine.ApplyReply(c2.machine, reply);
        Settle(c2.(machine := machine), t)
  }

  // --------------------------------------------------------------- write progress

  /** One policy answer to writer progress, merged into the effects collected so far. */
  function Absorb(c: CoreState, so: seq<Effect>, t: Transition, operation: OperationId, effect: EffectId)
    : (CoreState, Result<seq<Effect>, CoreError>)
  {
    if !t.disposition.Applied? then
      var broken := WritePolicyMismatch(operation, effect, t.disposition);
      (Poison(c, broken), Failure(Broken(broken)))
    else
      var (c1, effects) := Reconcile(c, t.effects);
      (c1, if effects.Success? then Success(so + effects.value) else effects)
  }

  /** A completed frame and the record that owned it are journaled before the policy moves. */
  function JournalCompletion(c: CoreState, q: QueuedWrite): (CoreState, Option<CoreError>) {
    var (journal, kept) := RetainWrite(c.journal, AsDiscarded(q));
    var c1 := c.(journal := journal);
    if !kept then (Poison(c1, RecoveryJournalCapacity), Some(Broken(RecoveryJournalCapacity)))
    else
      var index := IndexOf(c1.machine.pending, q.operation);
      if index.None? then
        (Poison(c1, UnexpectedWrite(q.operation, q.effect)), Some(Broken(UnexpectedWrite(q.operation, q.effect))))
      else
        var (journal, kept) := RetainOperation(c1.journal, c1.machine.pending[index.value], index.value);
        var c2 := c1.(journal := journal);
        if kept then (c2, None) else (Poison(c2, RecoveryJournalCapacity), Some(Broken(RecoveryJournalCapacity)))
  }

  function AbsorbStart(c: CoreState, epoch: Epoch, operation: OperationId, effect: EffectId, crossed: bool)
    : (CoreState, Result<seq<Effect>, CoreError>)
  {
    if !crossed then (c, Success([]))
    else
      var (machine, disposition) := Machine.WriteStarted(c.machine, epoch, operation, effect);
      Absorb(c.(machine := machine), [], Ignored(disposition), operation, effect)
  }

  function AbsorbCompletion(
    c: CoreState, so: seq<Effect>, epoch: Epoch, operation: OperationId, effect: EffectId, complete: bool)
    : (CoreState, Result<seq<Effect>, CoreError>)
  {
    if !complete then (c, Success(so))
    else
      var (machine, t) := Machine.WriteCompleted(c.machine, epoch, operation, effect);
      Absorb(c.(machine := machine), so, t, operation, effect)
  }

  /** The policy's side of one accepted progress report. */
  function Follow(c: CoreState, epoch: Epoch, effect: EffectId, operation: OperationId, crossed: bool, complete: bool)
    : (CoreState, Result<Transition, CoreError>)
  {
    var (c1, started) := AbsorbStart(c, epoch, operation, effect, crossed);
    if started.Failure? then (c1, Failure(started.error))
    else
      var (c2, effects) := AbsorbCompletion(c1, started.value, epoch, operation, effect, complete);
      if effects.Failure? then (c2, Failure(effects.error))
      else Finish(c2, Transition(Applied, None, effects.value))
  }

  function AdvanceWrite(
    c: CoreState, epoch: Epoch, effect: EffectId, count: nat): (CoreState, Result<Transition, CoreError>) {
    var (c1, error) := Health(c);
    if error.Some? then (c1, Failure(error.value))
    else
      var (writer, progress) := Advance(c1.writer, epoch, effect, count);
      var c2 := c1.(journal := BeginProgress(c1.journal), writer := writer);
      match progress
      case Failure(RetainedAccountingUnderflow(_, _)) => (Poison(c2, WriteAccounting), Failure(Broken(WriteAccounting)))
      case Failure(ProgressAccountingOverflow(_, _)) => (Poison(c2, WriteAccounting), Failure(Broken(WriteAccounting)))
      case Failure(ExceedsRemaining(written, remaining)) =>
        (Poison(c2, WriteProgressContract(written, remaining)), Failure(Broken(WriteProgressContract(written, remaining))))
      case Failure(error) => (c2.(journal := Cleared(c2.journal)), Failure(WriteFault(error)))
      case Success(Pending(operation, crossed)) => Follow(c2, epoch, effect, operation, crossed, false)
      case Success(Complete(operation, q, crossed)) =>
        var (c3, error) := JournalCompletion(c2, q);
        if error.Some? then (c3, Failure(error.value)) else Follow(c3, epoch, effect, operation, crossed, true)
  }

  // --------------------------------------------------------------- recovery

  function Recover(c: CoreState): (CoreState, ConnectionRecovery) {
    var merged := Merge(c.journal.operations, c.machine.pending);
    var start := Restoring(
      AllDiscarded(c.writer.frames) + HeldWrites(c.journal), [], c.machine.ledger,
      c.journal.armed || c.journal.operations != [] || merged.diverged);
    var out := RestoreAll(start, merged.survivors);
    (CoreState(c.machine.(pending := [], ledger := out.ledger),
               c.writer.(frames := [], used := 0),
               Cleared(c.journal),
               Some(if c.poisoned.Some? then c.poisoned.value else Recovered), c.audited),
     ConnectionRecovery(c.machine.epoch, out.operations, out.writes,
                        out.diverged || out.writes != [] || out.ledger.poisoned))
  }
}
