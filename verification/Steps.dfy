/** What each input and reply does to a healthy owner, as one of a few moves. */
module Steps {
  import opened Primitives
  import opened KeySet
  import opened Ledger
  import opened Operations
  import opened Writer
  import opened Journal
  import opened Recovery
  import opened Core
  import opened World
  import opened Moves
  import opened Removal
  import opened Closure
  import opened Settlement
  import opened Agreement
  import opened Reconciling
  import Machine

  // --------------------------------------------------------------- the journal is ready

  /** Only the journal was begun. */
  ghost predicate Prepared(c: CoreState, w: World) {
    && c == w.core.(journal := c.journal)
    && c.journal.writes == [] && c.journal.overflow.None?
    && Cleared(c.journal) == w.core.journal
  }

  lemma BeginsJournal(w: World, g: Ghosts)
    requires Sound(w, g, Tight)
    ensures BeginJournal(w.core).1.None? && Prepared(BeginJournal(w.core).0, w)
    ensures Prepared(w.core, w)
  {
    JournalRoom(w, g, Tight);
    hide Structured, Identified, Recorded, Balanced;
  }

  lemma BeginsOperationJournal(w: World, g: Ghosts, id: OperationId)
    requires Sound(w, g, Tight)
    ensures BeginOperationJournal(w.core, id).1.None? && Prepared(BeginOperationJournal(w.core, id).0, w)
  {
    hide Identified, Recorded, Balanced, Shaped, Ordered, Tracked, CutAt, Cut, IndexOf, RetainedSum;
    JournalRoom(w, g, Tight);
  }

  /** No input ever finds the journal too small. */
  lemma InputPrepares(w: World, g: Ghosts, input: Input)
    requires Sound(w, g, Tight)
    ensures PrepareInput(w.core, input).1.None? && Prepared(PrepareInput(w.core, input).0, w)
  {
    hide Sound, BeginJournal, BeginOperationJournal, Prepared;
    BeginsJournal(w, g);
    match input
    case Cancel(_, operation) => BeginsOperationJournal(w, g, operation);
    case DeadlineReached(_, operation, _) => BeginsOperationJournal(w, g, operation);
    case _ =>
  }

  lemma ReplyPrepares(w: World, g: Ghosts, reply: InboundReply)
    requires Sound(w, g, Tight)
    ensures PrepareReply(w.core, reply).1.None? && Prepared(PrepareReply(w.core, reply).0, w)
  {
    hide Sound, BeginJournal, BeginOperationJournal, Prepared;
    BeginsJournal(w, g);
    if w.core.machine.pending != [] { BeginsOperationJournal(w, g, w.core.machine.pending[0].id); }
  }

  // --------------------------------------------------------------- settling

  /** The policy changed without touching a frame. */
  lemma QuietSettles(w: World, c: CoreState, m: Machine.MachineState, t: Transition)
    requires Prepared(c, w) && w.core.poisoned.None? && !m.ledger.poisoned && NoDiscards(t.effects)
    ensures Settle(c.(machine := m), t) == (w.core.(machine := m), Success(t))
  {
    ReconcileQuiet(c.(machine := m), t.effects);
  }

  /** Policy and world agree on how a drain ends. */
  lemma DrainMatches(w: World)
    requires w.core.machine.gate.Draining? ==> w.core.machine.phase.Live?
    requires w.core.machine.pending == [] ==> w.core.writer.frames == [] && w.core.writer.used == 0
    ensures var (m, effects) := Machine.FinishDrain(w.core.machine);
      NoDiscards(effects) && AfterDrain(w) == w.(core := w.core.(machine := m), trace := w.trace + effects)
  {
    var m := w.core.machine;
    if m.gate.Draining? && m.pending == [] {
      var effects := Machine.FinishDrain(m).1;
      assert effects == [CloseEpoch(m.epoch, CloseReason.Drained)];
      VisibleOne(effects[0]);
    } else {
      assert w.trace + [] == w.trace;
    }
  }

  lemma RemovedDrains(w: World, g: Ghosts, slack: Slack, i: nat, outcome: OperationOutcome)
    requires Sound(w, g, slack) && Removable(w, slack, i, outcome)
    ensures |w.core.writer.frames| <= |w.core.machine.pending|
    ensures var after := Removed(w, i, outcome);
      (after.core.machine.gate.Draining? ==> after.core.machine.phase.Live?)
      && (after.core.machine.pending == [] ==> after.core.writer.frames == [] && after.core.writer.used == 0)
  {
    StructureCounts(w, g, slack);
    RemovalKeeps(w, g, slack, i, outcome);
    NoneHeld(Removed(w, i, outcome), GhostsWithout(g, w, i));
  }

  lemma NoneHeld(w: World, g: Ghosts)
    requires Sound(w, g, Tight)
    ensures w.core.machine.pending == [] ==> w.core.writer.frames == [] && w.core.writer.used == 0
    ensures w.core.machine.gate.Draining? ==> w.core.machine.phase.Live?
    ensures !w.core.machine.ledger.poisoned
  {
  }

  lemma DrainedHealthy(w: World, g: Ghosts)
    requires Sound(w, g, Tight)
    ensures !AfterDrain(w).core.machine.ledger.poisoned
  {
    DrainKeeps(w, g);
    NoneHeld(AfterDrain(w), DrainedGhosts(w, g));
  }

  lemma RemovalSettled(
    c: CoreState, pending: seq<Record>, i: nat, m: Machine.MachineState, t: Transition, rest: seq<Effect>)
    requires i < |pending| && Locatable(c, pending, i) && NoDiscards(rest)
    requires t.effects == Removing(c.writer.epoch, pending[i], rest) && !m.ledger.poisoned && c.poisoned.None?
    ensures Settle(c.(machine := m), t)
         == (c.(machine := m, writer := WriterWithout(c.writer, pending, i), journal := Cleared(c.journal)),
             Success(t.(effects := rest)))
  {
    RemovalReconciles(c.(machine := m), pending, i, rest);
    hide Locatable, Reconcile, WriterWithout, Removing;
  }

  lemma RemovedHealthy(w: World, g: Ghosts, slack: Slack, i: nat, outcome: OperationOutcome)
    requires Sound(w, g, slack) && Removable(w, slack, i, outcome)
    ensures |w.core.writer.frames| <= |w.core.machine.pending|
    ensures !AfterDrain(Removed(w, i, outcome)).core.machine.ledger.poisoned
  {
    StructureCounts(w, g, slack);
    RemovalKeeps(w, g, slack, i, outcome);
    DrainedHealthy(Removed(w, i, outcome), GhostsWithout(g, w, i));
  }

  lemma SoundLocatable(w: World, g: Ghosts, slack: Slack, i: nat, c: CoreState)
    requires Sound(w, g, slack) && i < |w.core.machine.pending| && Midway(c, w)
    ensures Locatable(c, w.core.machine.pending, i) && c.writer.epoch == w.core.machine.epoch
  {
    hide Structured, Identified, Accounted, Locatable;
    RemovalLocatable(w, g, slack, i, c);
  }

  lemma RemovedCore(w: World, i: nat, outcome: OperationOutcome)
    requires i < |w.core.machine.pending| && |w.core.writer.frames| <= |w.core.machine.pending|
    ensures Removed(w, i, outcome)
         == w.(core := w.core.(machine := Machine.Without(w.core.machine, i),
                               writer := WriterWithout(w.core.writer, w.core.machine.pending, i)),
               trace := w.trace + Farewell(w.core.machine.epoch, w.core.machine.pending[i], outcome))
  {
  }

  lemma FarewellQuiet(epoch: Epoch, r: Record, outcome: OperationOutcome, more: seq<Effect>)
    requires NoDiscards(more)
    ensures NoDiscards(Farewell(epoch, r, outcome) + more)
    ensures Removing(epoch, r, Farewell(epoch, r, outcome)) + more == Removing(epoch, r, Farewell(epoch, r, outcome) + more)
  {
  }

  lemma PreparedMidway(c: CoreState, w: World, m: Machine.MachineState)
    requires Prepared(c, w) && w.core.poisoned.None? && !m.ledger.poisoned
    ensures Midway(c.(machine := m), w) && c.poisoned.None? && c.writer == w.core.writer
    ensures Cleared(c.journal) == w.core.journal
  {
  }

  /** A removing transition, drain included, reconciles to the world without that record. */
  lemma RemovingSettles(w: World, g: Ghosts, i: nat, outcome: OperationOutcome, c: CoreState, t: Transition)
    requires i < |w.core.machine.pending|
    requires Sound(w, g, Tight) && Removable(w, Tight, i, outcome) && Prepared(c, w)
    requires t.effects == Removing(w.core.machine.epoch, w.core.machine.pending[i],
                                   Farewell(w.core.machine.epoch, w.core.machine.pending[i], outcome))
    requires w.core.poisoned.None? && |w.core.writer.frames| <= |w.core.machine.pending|
    ensures |w.core.writer.frames| <= |w.core.machine.pending|
    ensures var (m, t') := Machine.Drain(Machine.Without(w.core.machine, i), t);
      var (c', r) := Settle(c.(machine := m), t');
      r.Success? && Observed(w, c', r) == AfterDrain(Removed(w, i, outcome))
  {
    hide Sound, Removable, Locatable, Machine.Without, Machine.FinishDrain, Settle, AfterDrain, Removed, Removing,
      NoDiscards, Farewell, WriterWithout, Midway;
    RemovedDrains(w, g, Tight, i, outcome);
    var pending, epoch := w.core.machine.pending, w.core.machine.epoch;
    var removed := Removed(w, i, outcome);
    var without := Machine.Without(w.core.machine, i);
    var (m, more) := Machine.FinishDrain(without);
    var bye := Farewell(epoch, pending[i], outcome);
    DrainMatches(removed);
    RemovedCore(w, i, outcome);
    RemovedHealthy(w, g, Tight, i, outcome);
    PreparedMidway(c, w, m);
    SoundLocatable(w, g, Tight, i, c.(machine := m));
    FarewellQuiet(epoch, pending[i], outcome, more);
    RemovalSettled(c.(machine := m), pending, i, m, t.(effects := t.effects + more), bye + more);
    assert w.trace + bye + more == w.trace + (bye + more);
  }

  // --------------------------------------------------------------- closing

  lemma ClosureSettled(c: CoreState, pending: seq<Record>, m: Machine.MachineState, t: Transition, reason: CloseReason,
      blame: Option<Machine.Blame>)
    requires Closable(c, pending) && !m.ledger.poisoned && c.poisoned.None?
    requires t.effects == [CloseEpoch(c.writer.epoch, reason)] + Machine.CloseEffects(c.writer.epoch, reason, blame, pending)
    ensures Settle(c.(machine := m), t)
         == (c.(machine := m, writer := c.writer.(frames := [], used := 0), journal := Cleared(c.journal)),
             Success(t.(effects := Visible(t.effects))))
  {
    hide Closable, Reconcile, Machine.CloseEffects, Visible;
    SameClosable(c, pending, m);
    ClosureReconciles(c.(machine := m), pending, reason, blame);
  }

  lemma SameClosable(c: CoreState, pending: seq<Record>, m: Machine.MachineState)
    requires Closable(c, pending)
    ensures Closable(c.(machine := m), pending)
  {
  }

  lemma ClosedHealthy(w: World, g: Ghosts, reason: CloseReason, blame: Option<Machine.Blame>)
    requires Sound(w, g, Tight) && w.core.machine.phase.Live?
    ensures !ClosedWorld(w, reason, blame).core.machine.ledger.poisoned
  {
    ClosureKeeps(w, g, Tight, reason, blame);
    NoneHeld(ClosedWorld(w, reason, blame), g.(order := []));
  }

  lemma SoundClosable(w: World, g: Ghosts, c: CoreState)
    requires Sound(w, g, Tight) && Midway(c, w)
    ensures Closable(c, w.core.machine.pending) && c.writer.epoch == w.core.machine.epoch
  {
    hide Structured, Identified, Accounted, Closable;
    ClosableOwner(w, g, Tight, c);
  }

  lemma ClosingSettles(
    w: World, g: Ghosts, reason: CloseReason, blame: Option<Machine.Blame>, c: CoreState, t: Transition)
    requires Sound(w, g, Tight) && w.core.machine.phase.Live? && w.core.poisoned.None? && Prepared(c, w)
    requires t.effects == Machine.Close(w.core.machine, reason, blame).1
    ensures var (c', r) := Settle(c.(machine := Machine.Close(w.core.machine, reason, blame).0), t);
      r.Success? && Observed(w, c', r) == ClosedWorld(w, reason, blame)
  {
    hide Sound, Closable, Machine.CloseEffects, Machine.ReleaseEach, Midway, Visible, Settle;
    var m := Machine.Close(w.core.machine, reason, blame).0;
    ClosedHealthy(w, g, reason, blame);
    PreparedMidway(c, w, m);
    SoundClosable(w, g, c.(machine := m));
    ClosureSettled(c.(machine := m), w.core.machine.pending, m, t, reason, blame);
  }

  // --------------------------------------------------------------- phase and gate

  function Regated(w: World, gate: AdmissionGate, phase: ConnectionPhase): World {
    w.(core := w.core.(machine := w.core.machine.(gate := gate, phase := phase)))
  }

  lemma RegatedKeeps(w: World, g: Ghosts, gate: AdmissionGate, phase: ConnectionPhase)
    requires Sound(w, g, Tight)
    requires phase.Live? == w.core.machine.phase.Live? && (phase.Live? <==> !gate.GateClosed?)
    ensures Sound(Regated(w, gate, phase), g, Tight)
  {
    hide Balanced, Shaped, Ordered, Tracked, CutAt, Certain, Answered, Closures, RetainedSum, ActiveBag, OutcomeIds;
    var after := Regated(w, gate, phase);
    assert Identified(after, g.delta);
    assert Structured(after, g, Tight);
  }

  // --------------------------------------------------------------- each input

  /** The core's answer to an input, once its checks passed and its journal is ready. */
  lemma InputAnswers(w: World, g: Ghosts, input: Input)
    requires Sound(w, g, Tight)
    ensures var c := PrepareInput(w.core, input).0;
      Prepared(c, w) && c.machine == w.core.machine
      && Core.Apply(w.core, input) == Settle(c.(machine := Machine.Apply(c.machine, input).0),
        Machine.Apply(c.machine, input).1)
  {
    hide Sound, Violation, Settle, Machine.Apply, PrepareInput;
    AuditPasses(w, g);
    InputPrepares(w, g, input);
  }

  lemma ReplyAnswers(w: World, g: Ghosts, reply: InboundReply)
    requires Sound(w, g, Tight)
    ensures var c := PrepareReply(w.core, reply).0;
      Prepared(c, w) && c.machine == w.core.machine
      && Core.ApplyReply(w.core, reply) == Settle(c.(machine := Machine.ApplyReply(c.machine, reply).0),
        Machine.ApplyReply(c.machine, reply).1)
  {
    hide Sound, Violation, Settle, Machine.ApplyReply, PrepareReply;
    AuditPasses(w, g);
    ReplyPrepares(w, g, reply);
  }

  /** A policy answer without effects on frames changes only the policy. */
  lemma QuietObserved(w: World, g: Ghosts, c: CoreState, m: Machine.MachineState, t: Transition)
    requires Sound(w, g, Tight) && Prepared(c, w) && w.core.poisoned.None?
    requires m.ledger == w.core.machine.ledger && NoDiscards(t.effects)
    ensures var (c', r) := Settle(c.(machine := m), t);
      r.Success? && Observed(w, c', r) == w.(core := w.core.(machine := m), trace := w.trace + t.effects)
  {
    hide Sound, Settle, Prepared, NoDiscards;
    NoneHeld(w, g);
    QuietSettles(w, c, m, t);
  }

  function CancelledWorld(w: World, id: OperationId): World
    requires |w.core.writer.frames| <= |w.core.machine.pending|
  {
    var m := w.core.machine;
    var index := IndexOf(m.pending, id);
    if index.None? || m.pending[index.value].phase.Terminal? then w
    else if m.pending[index.value].delivery.NotSent? then AfterDrain(Removed(w, index.value, Cancelled(NotSent)))
    else Tombstoned(w, index.value)
  }

  /** Cancelling removes an unsent operation and turns a possibly sent one into a tombstone; a
      second cancellation, an unknown operation or another epoch changes nothing. */
  lemma CancelComputes(w: World, g: Ghosts, epoch: Epoch, id: OperationId)
    requires Sound(w, g, Tight)
    ensures |w.core.writer.frames| <= |w.core.machine.pending|
    ensures var (c, r) := Core.Apply(w.core, Cancel(epoch, id));
      r.Success? && Observed(w, c, r) == if epoch == w.core.machine.epoch then CancelledWorld(w, id) else w
  {
    hide Sound, Settle, Removable, Removed, AfterDrain, Core.Apply, PrepareInput, Prepared, Machine.Without,
      Machine.Drain;
    SoundCounts(w, g);
    InputAnswers(w, g, Cancel(epoch, id));
    var c := PrepareInput(w.core, Cancel(epoch, id)).0;
    var m := w.core.machine;
    var (m', t) := Machine.Apply(m, Cancel(epoch, id));
    var index := IndexOf(m.pending, id);
    if epoch != m.epoch || index.None? || m.pending[index.value].phase.Terminal? {
      QuietObserved(w, g, c, m, t);
      assert w.trace + [] == w.trace;
    } else if m.pending[index.value].delivery.NotSent? {
      var r := m.pending[index.value];
      UnsentRemovable(w, g, index.value, Cancelled(NotSent));
      assert Farewell(m.epoch, r, Cancelled(NotSent)) == [CancelDeadline(m.epoch, id),
        PublishOutcome(m.epoch, id, Cancelled(NotSent))];
      RemovingSettles(w, g, index.value, Cancelled(NotSent), c,
        Transition(Applied, Some(CancelledNotSent), Removing(m.epoch, r, Farewell(m.epoch, r, Cancelled(NotSent)))));
    } else {
      QuietObserved(w, g, c, m', t);
    }
  }

  lemma SoundCounts(w: World, g: Ghosts)
    requires Sound(w, g, Tight)
    ensures |w.core.writer.frames| <= |w.core.machine.pending| && w.core.poisoned.None?
    ensures w.core.machine.pending != [] ==> w.core.machine.phase.Live?
  {
  }

  lemma UnsentRemovable(w: World, g: Ghosts, i: nat, outcome: OperationOutcome)
    requires Sound(w, g, Tight) && i < |w.core.machine.pending| && w.core.machine.pending[i].delivery.NotSent?
    requires !outcome.Reply? && OutcomeDelivery(outcome) == Some(NotSent)
    ensures Removable(w, Tight, i, outcome)
  {
    hide Structured, Identified, Accounted, Recorded, Closures;
  }

  function ElapsedWorld(w: World, id: OperationId, now: Moment): World
    requires |w.core.writer.frames| <= |w.core.machine.pending|
  {
    var m := w.core.machine;
    var index := IndexOf(m.pending, id);
    if index.None? then w
    else
      var r := m.pending[index.value];
      if now < r.deadline then w.(trace := w.trace + [ScheduleDeadline(m.epoch, id, r.deadline)])
      else if r.delivery.PossiblySent? then ClosedWorld(w, DeadlineAfterPossibleSend, None)
      else AfterDrain(Removed(w, index.value, Failed(OperationFailure.DeadlineElapsed, NotSent)))
  }

  /** An early timer is rearmed with the original deadline; an elapsed one fails an unsent
      operation alone, and closes the epoch when bytes may have left. */
  lemma DeadlineComputes(w: World, g: Ghosts, epoch: Epoch, id: OperationId, now: Moment)
    requires Sound(w, g, Tight)
    ensures |w.core.writer.frames| <= |w.core.machine.pending|
    ensures var (c, r) := Core.Apply(w.core, DeadlineReached(epoch, id, now));
      r.Success? && Observed(w, c, r) == if epoch == w.core.machine.epoch then ElapsedWorld(w, id, now) else w
  {
    hide Sound, Settle, Removable, Removed, AfterDrain, ClosedWorld, Core.Apply, PrepareInput, Prepared,
      Machine.Without, Machine.Drain, Machine.Close;
    SoundCounts(w, g);
    var input := DeadlineReached(epoch, id, now);
    InputAnswers(w, g, input);
    var c := PrepareInput(w.core, input).0;
    var m := w.core.machine;
    var (m', t) := Machine.Apply(m, input);
    var index := IndexOf(m.pending, id);
    if epoch != m.epoch || index.None? || now < m.pending[index.value].deadline {
      QuietObserved(w, g, c, m, t);
      assert w.trace + [] == w.trace;
    } else if m.pending[index.value].delivery.PossiblySent? {
      ClosingSettles(w, g, DeadlineAfterPossibleSend, None, c, t);
    } else {
      var r, outcome := m.pending[index.value], Failed(OperationFailure.DeadlineElapsed, NotSent);
      UnsentRemovable(w, g, index.value, outcome);
      assert !r.phase.Terminal? by { UnsentQueued(w, g, index.value); }
      assert Farewell(m.epoch, r, outcome) == [CancelDeadline(m.epoch, id), PublishOutcome(m.epoch, id, outcome)];
      RemovingSettles(w, g, index.value, outcome, c,
        Transition(Applied, None, Removing(m.epoch, r, Farewell(m.epoch, r, outcome))));
    }
  }

  /** A tombstone was possibly sent, so an unsent record is never one. */
  lemma UnsentQueued(w: World, g: Ghosts, i: nat)
    requires Sound(w, g, Tight) && i < |w.core.machine.pending| && w.core.machine.pending[i].delivery.NotSent?
    ensures !w.core.machine.pending[i].phase.Terminal?
    ensures w.core.machine.pending[i].writeHeld ==> w.core.machine.pending[i].phase.Queued?
  {
    SoundShaped(w, g);
    hide Sound, Shaped;
    UnsentShaped(w.core.machine.pending, w.core.writer.frames, i);
  }

  lemma SoundShaped(w: World, g: Ghosts)
    requires Sound(w, g, Tight)
    ensures Shaped(w.core.machine.pending, w.core.writer.frames, Tight)
  {
    hide Shaped;
  }

  lemma UnsentShaped(pending: seq<Record>, frames: seq<QueuedWrite>, i: nat)
    requires Shaped(pending, frames, Tight) && i < |pending| && pending[i].delivery.NotSent?
    ensures !pending[i].phase.Terminal? && (pending[i].writeHeld ==> pending[i].phase.Queued?)
  {
    var k := WrittenCount(pending, frames);
    if k <= i {
      assert Holds(pending[k + (i - k)], frames[i - k], SlackOf(Tight, i - k));
    } else {
      assert WrittenOut(pending[i]);
    }
  }

  function RestWorld(w: World, input: Input): World {
    var m := w.core.machine;
    match input
    case OpenAdmission(epoch) =>
      if epoch == m.epoch && m.phase.Live? && m.gate.SessionOnly? then Regated(w, AdmissionGate.Open, Live) else w
    case ReplyMalformed(epoch) =>
      if epoch == m.epoch && m.phase.Live? then ClosedWorld(w, MalformedReply, None) else w
    case BeginDrain(epoch) =>
      if epoch == m.epoch && m.phase.Live? && !m.gate.Draining? then AfterDrain(Regated(w, Draining, Live)) else w
    case CloseRequested(epoch, reason) =>
      if epoch == m.epoch && m.phase.Live? then ClosedWorld(w, reason, None) else w
    case EpochClosed(epoch) =>
      if epoch == m.epoch && m.phase.Closing? then Regated(w, GateClosed, Closed) else w
    case _ => w
  }

  /** Opening, draining and closing, each only from the phase and gate it follows. */
  lemma RestComputes(w: World, g: Ghosts, input: Input)
    requires Sound(w, g, Tight) && !input.Cancel? && !input.DeadlineReached?
    ensures var (c, r) := Core.Apply(w.core, input);
      r.Success? && Observed(w, c, r) == RestWorld(w, input)
  {
    hide Sound, Settle, AfterDrain, ClosedWorld, Core.Apply, PrepareInput, Prepared, Machine.Close;
    SoundCounts(w, g);
    SoundGate(w, g);
    InputAnswers(w, g, input);
    var c := PrepareInput(w.core, input).0;
    var m := w.core.machine;
    var (m', t) := Machine.Apply(m, input);
    match input
    case OpenAdmission(epoch) =>
      QuietObserved(w, g, c, m', t);
    case ReplyMalformed(epoch) =>
      if epoch == m.epoch && m.phase.Live? { ClosingSettles(w, g, MalformedReply, None, c, t); }
      else { QuietObserved(w, g, c, m, t); }
    case BeginDrain(epoch) =>
      if epoch == m.epoch && m.phase.Live? && !m.gate.Draining? { DrainingSettles(w, g, c); }
      else { QuietObserved(w, g, c, m, t); }
    case CloseRequested(epoch, reason) =>
      if epoch == m.epoch && m.phase.Live? { ClosingSettles(w, g, reason, None, c, t); }
      else { QuietObserved(w, g, c, m, t); }
    case EpochClosed(epoch) =>
      QuietObserved(w, g, c, m', t);
  }

  lemma SoundGate(w: World, g: Ghosts)
    requires Sound(w, g, Tight)
    ensures w.core.machine.phase.Live? <==> !w.core.machine.gate.GateClosed?
  {
  }

  lemma DrainingSettles(w: World, g: Ghosts, c: CoreState)
    requires Sound(w, g, Tight) && w.core.machine.phase.Live? && w.core.poisoned.None? && Prepared(c, w)
    ensures var (m, t) := Machine.Drain(w.core.machine.(gate := Draining), Ignored(Applied));
      var (c', r) := Settle(c.(machine := m), t);
      r.Success? && Observed(w, c', r) == AfterDrain(Regated(w, Draining, Live))
  {
    hide Sound, Settle, AfterDrain, Machine.FinishDrain, NoDiscards, Prepared;
    var (m, t) := Machine.Drain(w.core.machine.(gate := Draining), Ignored(Applied));
    var draining := Regated(w, Draining, Live);
    RegatedKeeps(w, g, Draining, Live);
    NoneHeld(draining, g);
    DrainMatches(draining);
    DrainedHealthy(draining, g);
    assert [] + t.effects == t.effects;
    QuietSettles(w, c, m, t);
  }

  function RepliedWorld(w: World, reply: InboundReply): World
    requires |w.core.writer.frames| <= |w.core.machine.pending|
  {
    var m := w.core.machine;
    if reply.epoch != m.epoch || !m.phase.Live? then w
    else if m.pending == [] || !Machine.AwaitsReply(m.pending[0]) then ClosedWorld(w, UnexpectedReply, None)
    else
      var front := m.pending[0];
      var expected := front.reservation.key;
      if reply.key == expected then AfterDrain(Removed(w, 0, Reply(reply.payload)))
      else
        ClosedWorld(w, MatchKeyMismatch(expected, reply.key),
                    Some(Machine.Blame(front.id, ReplyKeyMismatch(expected, reply.key))))
  }

  /** Only the head of the line can own a reply, and only with its own key; any other reply of
      this epoch closes a live connection. */
  lemma ReplyComputes(w: World, g: Ghosts, reply: InboundReply)
    requires Sound(w, g, Tight)
    ensures |w.core.writer.frames| <= |w.core.machine.pending|
    ensures var (c, r) := Core.ApplyReply(w.core, reply);
      r.Success? && Observed(w, c, r) == RepliedWorld(w, reply)
  {
    hide Sound, Settle, Removable, Removed, AfterDrain, ClosedWorld, Core.ApplyReply, PrepareReply, Prepared,
      Machine.Drain, Machine.Close, Release;
    SoundCounts(w, g);
    ReplyAnswers(w, g, reply);
    var c := PrepareReply(w.core, reply).0;
    var m := w.core.machine;
    var (m', t) := Machine.ApplyReply(m, reply);
    if reply.epoch != m.epoch || !m.phase.Live? {
      QuietObserved(w, g, c, m, t);
      assert w.trace + [] == w.trace;
    } else if m.pending == [] || !Machine.AwaitsReply(m.pending[0]) {
      ClosingSettles(w, g, UnexpectedReply, None, c, t);
    } else {
      var r := m.pending[0];
      var expected := r.reservation.key;
      if reply.key == expected {
        var outcome := Reply(reply.payload);
        AnsweredRemovable(w, g, outcome);
        RemovingSettles(w, g, 0, outcome, c, Transition(Applied, None, Removing(m.epoch, r, Farewell(m.epoch, r, outcome))));
        assert Removing(m.epoch, r, Farewell(m.epoch, r, outcome)) == Farewell(m.epoch, r, outcome);
      } else {
        ClosingSettles(w, g, MatchKeyMismatch(expected, reply.key),
                       Some(Machine.Blame(r.id, ReplyKeyMismatch(expected, reply.key))), c, t);
      }
    }
  }

  lemma AnsweredRemovable(w: World, g: Ghosts, outcome: OperationOutcome)
    requires Sound(w, g, Tight) && w.core.machine.pending != [] && !w.core.machine.pending[0].writeHeld
    requires outcome.Reply?
    ensures Removable(w, Tight, 0, outcome)
  {
    HeldFrom(w.core.machine.pending, w.core.writer.frames, Tight, 0);
    hide Shaped, Ordered, Tracked, CutAt, Identified, Accounted, Recorded, Closures;
  }
}
