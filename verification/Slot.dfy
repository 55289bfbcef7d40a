/** One production slot over an arbitrary transport: it interprets core effects into timers,
    outcomes, lifecycle events and a close directive, and drives everything under a work budget. */
module Slot {
  import opened Primitives
  import opened KeySet
  import opened Ledger
  import opened Operations
  import opened Writer
  import opened Core
  import opened World
  import opened Moves
  import opened Closure
  import opened Runs
  import opened Guarantees
  import opened Bounded
  import opened SlotEffects
  import opened SlotSteps
  import opened SlotState
  import Admission
  import Machine

  class ConnectionSlot {
    const limits: SlotLimits
    const connectDeadline: Moment
    const decoder: FrameDriver
    var core: CoreState
    /** The core's own history, permits included. */
    ghost var world: World
    var timers: TimerQueue
    var deadlines: seq<DeadlineEntry>
    ghost var index: DeadlineIndex
    var outcomes: seq<EngineOutcome>
    /** Outcomes the host already drained. */
    ghost var taken: seq<EngineOutcome>
    var recoveryOutcomes: seq<EngineOutcome>
    var lifecycle: seq<ConnectionEvent>
    var recoveryEvents: seq<ConnectionEvent>
    /** Every lifecycle edge ever published. */
    ghost var events: seq<ConnectionEvent>
    var eventSequence: nat
    var decoderPending: bool
    var ioPreference: IoPreference
    var transportState: TransportState
    /** The transport's own retained limit, once reported. */
    var transportLimit: Option<nat>
    var drainDeadline: Option<Moment>
    var closeRequest: Option<CloseDirective>
    var failed: bool

    // ------------------------------------------------------------- what holds between calls

    /** The core and its history agree. */
    ghost predicate Grounded()
      reads this`core, this`world
    {
      world.core == core && Sane(world) && core.machine.ledger.limits == limits.connection && limits.Valid()
    }

    ghost predicate Indexed()
      reads this`timers, this`deadlines, this`index, this`core
    {
      Timed(timers, deadlines, index, core.machine.epoch) && timers.capacity == limits.Capacity()
    }

    /** Every outcome still to come has a reserved place. */
    ghost predicate Roomy()
      reads this`outcomes, this`world, this`core
    {
      && |outcomes| + |world.permits| + |ActiveBag(core.machine.pending)| <= limits.Capacity()
      && Small(outcomes, limits.replyBytes)
    }

    /** What was published is exactly what the core returned. */
    ghost predicate Delivered()
      reads this`taken, this`outcomes, this`world
    {
      taken + outcomes == Publications(world.trace)
    }

    ghost predicate Streamed()
      reads this`events, this`eventSequence, this`recoveryEvents
    {
      SlotState.Ordered(events) && eventSequence == |events| && |recoveryEvents| <= |events|
    }

    ghost predicate Owned()
      reads this`core, this`world, this`timers, this`deadlines, this`index, this`outcomes, this`taken, this`events,
        this`eventSequence, this`recoveryEvents
    {
      Grounded() && Indexed() && Armed(index, core.machine.pending) && Roomy() && Delivered() && Streamed()
    }

    /** Transport, epoch, directive and stream are at the same stage. */
    ghost predicate Phased()
      reads this`core, this`transportState, this`closeRequest, this`events
    {
      var m := core.machine;
      && core.poisoned.None?
      && (m.phase.Live? <==> transportState.Connecting? || transportState.Open?)
      && (m.phase.Closing? <==> transportState.Closing?) && (m.phase.Closing? <==> closeRequest.Some?)
      && (closeRequest.Some? ==> closeRequest.value.CoreClose?)
      && (closeRequest.Some? && closeRequest.value.ShutdownDeadline().Some? ==> closeRequest.value.reason.Drained?)
      && (transportState.Connecting? ==> events == [] && m.gate != AdmissionGate.Open)
      && (transportState.Open? ==> LastRank(events) <= 1 && (m.gate.SessionOnly? ==> LastRank(events) <= 0))
      && (transportState.Closing? ==> LastRank(events) <= 2)
    }

    /** A draining live epoch, and no other, has a drain deadline. */
    ghost predicate Staged()
      reads this`core, this`transportState, this`closeRequest, this`events, this`drainDeadline
    {
      Phased() && (drainDeadline.Some? <==> core.machine.phase.Live? && core.machine.gate.Draining?)
    }

    ghost predicate Valid()
      reads this`core, this`world, this`timers, this`deadlines, this`index,
        this`outcomes, this`taken, this`events, this`eventSequence, this`recoveryEvents, this`transportState,
          this`closeRequest, this`drainDeadline, this`failed
    {
      Owned() && (if failed then closeRequest.None? || closeRequest.value.Abort? else Staged())
    }

    /** What a drive step may only ever let go of. */
    ghost function Watch(): Watching
      reads this`index, this`transportState, this`drainDeadline, this`closeRequest, this`world
    {
      Watching(index, transportState.Connecting?, drainDeadline, MayBegin(), world.wire)
    }

    /** A graceful shutdown could still begin. */
    ghost predicate MayBegin()
      reads this`transportState, this`closeRequest
    {
      transportState.Connecting? || transportState.Open?
      || (closeRequest.Some? && closeRequest.value.CoreClose? && closeRequest.value.shutdown.Pending?)
    }

    /** What the transport took is what the core accounts for as sent, exactly while it is honest. */
    ghost predicate Matched(transport: SlotTransport)
      reads this`world, transport
    {
      if transport.honest then transport.accepted == world.wire else |transport.accepted| < |world.wire|
    }

    /** The transport's bytes are accounted for, and it is asked to shut down at most once. */
    ghost predicate Attached(transport: SlotTransport?)
      reads this`world, this`transportState, this`closeRequest, transport
    {
      transport != null ==>
        Matched(transport) && transport.shutdowns <= 1 && (MayBegin() ==> transport.shutdowns == 0)
    }

    /** The outcome of one internal step. */
    ghost predicate Kept(failure: Option<EngineError>)
      reads this`core, this`world, this`timers, this`deadlines, this`index, this`outcomes, this`taken, this`events,
        this`eventSequence, this`recoveryEvents, this`transportState, this`closeRequest, this`drainDeadline
    {
      Owned() && (if failure.None? then Staged() else failure.value.Explained())
    }

    constructor (limits: SlotLimits, connectDeadline: Moment, decoder: FrameDriver, epoch: Epoch, audited: bool)
      requires limits.Valid()
      ensures Valid() && !failed && this.limits == limits && this.connectDeadline == connectDeadline
      ensures core == InitialCore(epoch, limits.connection, 0, 0, audited) && transportState.Connecting?
      ensures drainDeadline.None? && world.wire == [] && lifecycle == []
    {
      hide Sane, Timed, Armed, Publications, ActiveBag, InitialWorld, InitialCore, Small, SlotState.Ordered, LastRank;
      this.limits, this.connectDeadline, this.decoder := limits, connectDeadline, decoder;
      core := InitialCore(epoch, limits.connection, 0, 0, audited);
      world := Setup(epoch, limits.connection, 0, 0, audited).Start();
      timers, deadlines, index := TimerQueue(limits.Capacity(), map[], 0), [], map[];
      outcomes, taken, recoveryOutcomes := [], [], [];
      lifecycle, recoveryEvents, events, eventSequence := [], [], [], 0;
      decoderPending, ioPreference, transportState, transportLimit := false, PreferTransport, Connecting, None;
      drainDeadline, closeRequest, failed := None, None, false;
      new;
      StartSane(Setup(epoch, limits.connection, 0, 0, audited));
      StartFacts(Setup(epoch, limits.connection, 0, 0, audited));
      StartIndexed(timers, core);
      StartPublished();
      assert Grounded() && Indexed() && Armed(index, core.machine.pending);
      assert Roomy();
      assert taken + outcomes == [];
      assert Delivered();
      assert Streamed();
      assert Staged();
      hide Grounded, Indexed, Roomy, Delivered, Streamed, Staged;
    }

    static lemma StartFacts(setup: Setup)
      ensures var w := setup.Start();
        w.core == InitialCore(setup.epoch, setup.limits, setup.operationSeed, setup.effectSeed, setup.audited)
        && w.core.machine.pending == [] && w.core.machine.ledger.limits == setup.limits && w.core.machine.phase.Live?
        && w.core.machine.gate.SessionOnly? && w.core.poisoned.None? && w.permits == [] && w.trace == [] && w.wire == []
    {
    }

    static lemma StartIndexed(timers: TimerQueue, c: CoreState)
      requires timers.entries == map[] && c.machine.pending == []
      ensures Timed(timers, [], map[], c.machine.epoch) && Armed(map[], c.machine.pending)
      ensures ActiveBag(c.machine.pending) == multiset{}
    {
    }

    static lemma StartPublished()
      ensures Publications([]) == [] && SlotState.Ordered([]) && LastRank([]) == -1
      ensures forall bytes :: Small([], bytes)
    {
    }

    // ------------------------------------------------------------- the deadline index

    method DisarmDeadline(operation: OperationId)
      requires Indexed()
      modifies this`timers, this`deadlines, this`index
      ensures Indexed() && index == old(index) - {operation}
    {
      hide Timed;
      for j := 0 to |deadlines|
        invariant timers == old(timers) && deadlines == old(deadlines) && index == old(index)
        invariant forall i :: 0 <= i < j ==> deadlines[i].operation != operation
      {
        if deadlines[j].operation == operation {
          TimedRemove(timers, deadlines, index, core.machine.epoch, j);
          timers := timers.Cancel(deadlines[j].token);
          deadlines := SwapRemove(deadlines, j);
          index := index - {operation};
          return;
        }
      }
      TimedUnknown(timers, deadlines, index, core.machine.epoch, operation);
    }

    /** Arming fails exactly when the other deadlines already fill the index. */
    method ArmDeadline(operation: OperationId, deadline: Moment) returns (failure: Option<EngineError>)
      requires Indexed()
      modifies this`timers, this`deadlines, this`index
      ensures Indexed() && (failure.None? <==> |old(index) - {operation}| < limits.Capacity())
      ensures index == if failure.None? then old(index)[operation := deadline] else old(index) - {operation}
    {
      hide Timed;
      DisarmDeadline(operation);
      TimedSizes(timers, deadlines, index, core.machine.epoch);
      if |deadlines| >= limits.Capacity() {
        return Some(Invariant(DeadlineIndexCapacity));
      }
      var scheduled := timers.Schedule(Timer(deadline, core.machine.epoch, operation));
      if scheduled.None? {
        return Some(Invariant(DeadlineSchedule));
      }
      TimedAdd(timers, deadlines, index, core.machine.epoch, operation, deadline);
      Rearming(old(index), operation, deadline);
      deadlines := deadlines + [DeadlineEntry(operation, timers.next)];
      timers := scheduled.value;
      index := index[operation := deadline];
      return None;
    }

    static lemma TimedSizes(timers: TimerQueue, deadlines: seq<DeadlineEntry>, index: DeadlineIndex, epoch: Epoch)
      requires Timed(timers, deadlines, index, epoch)
      ensures |deadlines| == |timers.entries| == |index|
    {
    }

    static lemma Rearming(index: DeadlineIndex, operation: OperationId, deadline: Moment)
      ensures (index - {operation})[operation := deadline] == index[operation := deadline]
      ensures operation !in index - {operation}
    {
    }

    // ------------------------------------------------------------- publication

    predicate FitsOutcome(outcome: EngineOutcome)
      reads this
    {
      |outcomes| < limits.Capacity() && RetainedBy(outcomes) + outcome.Retained() <= limits.OutcomeBytes()
    }

    /** An outcome that does not fit is kept for recovery. */
    method Publish(outcome: EngineOutcome) returns (failure: Option<EngineError>)
      modifies this`outcomes, this`recoveryOutcomes
      ensures failure.None? <==> old(FitsOutcome(outcome))
      ensures outcomes == if failure.None? then old(outcomes) + [outcome] else old(outcomes)
      ensures failure.None? ==> recoveryOutcomes == old(recoveryOutcomes)
      ensures failure.Some? && |old(recoveryOutcomes)| < limits.Capacity() ==>
        recoveryOutcomes == old(recoveryOutcomes) + [outcome]
    {
      if FitsOutcome(outcome) {
        outcomes := outcomes + [outcome];
        return None;
      }
      if |recoveryOutcomes| >= limits.Capacity() {
        return Some(Invariant(RecoveryOutcomePublication));
      }
      recoveryOutcomes := recoveryOutcomes + [outcome];
      return Some(Invariant(OutcomePublication));
    }

    /** Publication may fail only because the host left the stream full; even then the edge is kept
        for recovery, where it always fits. */
    method PublishEvent(event: ConnectionEvent) returns (failure: Option<EngineError>)
      requires limits.Valid() && Streamed() && event.sequence == eventSequence + 1 && LastRank(events) < event.Rank()
      modifies this`lifecycle, this`recoveryEvents, this`events, this`eventSequence
      ensures Streamed() && events == old(events) + [event]
      ensures failure.Some? ==> failure.value == Invariant(LifecyclePublication)
      ensures failure.Some? <==> |old(lifecycle)| >= limits.lifecycleEvents
      ensures failure.Some? ==> recoveryEvents == old(recoveryEvents) + [event] && lifecycle == old(lifecycle)
      ensures failure.None? ==> lifecycle == old(lifecycle) + [event] && recoveryEvents == old(recoveryEvents)
    {
      FewEvents(events);
      RanksBelow(events, event);
      events := events + [event];
      eventSequence := event.sequence;
      if |lifecycle| >= limits.lifecycleEvents {
        if |recoveryEvents| >= limits.RecoveryEvents() {
          return Some(Invariant(RecoveryLifecyclePublication));
        }
        recoveryEvents := recoveryEvents + [event];
        return Some(Invariant(LifecyclePublication));
      }
      lifecycle := lifecycle + [event];
      return None;
    }

    static lemma RanksBelow(events: seq<ConnectionEvent>, event: ConnectionEvent)
      requires SlotState.Ordered(events) && LastRank(events) < event.Rank() && event.sequence == |events| + 1
      ensures SlotState.Ordered(events + [event]) && |events| < 4
    {
      FewEvents(events);
      if events != [] {
        forall i | 0 <= i < |events| ensures events[i].Rank() < event.Rank() {
          if i < |events| - 1 { assert events[i].Rank() < events[|events| - 1].Rank(); }
        }
      }
    }

    // ------------------------------------------------------------- closing

    /** A drained, open transport shuts down gracefully by the drain's own deadline; any other
        closure is immediate. */
    method FinishClose(reason: CloseReason) returns (failure: Option<EngineError>)
      requires limits.Valid() && Streamed() && (closeRequest.None? ==> LastRank(events) <= 1)
      modifies this`lifecycle, this`recoveryEvents, this`events, this`eventSequence,
        this`drainDeadline, this`transportState, this`closeRequest
      ensures Streamed()
      ensures old(closeRequest).Some? ==>
        failure.None? && StillOpen(old(transportState), old(closeRequest), old(drainDeadline), old(events))
      ensures old(closeRequest).None? ==> Shutting(reason, old(transportState), old(drainDeadline))
      ensures old(closeRequest).None? ==> Excused(failure, reason, old(transportState), old(drainDeadline))
      ensures failure == Some(Invariant(LifecyclePublication)) ==> limits.lifecycleEvents <= |old(lifecycle)|
    {
      if closeRequest.Some? {
        return None;
      }
      failure := PublishEvent(ClosingEvent(eventSequence + 1, reason));
      var shutdown := Immediate;
      if transportState.Open? && reason.Drained? {
        if drainDeadline.None? {
          if failure.None? {
            failure := Some(Invariant(MissingShutdownDeadline));
          }
        } else {
          shutdown := SlotState.Pending(drainDeadline.value);
        }
      }
      drainDeadline := None;
      transportState := TransportState.Closing;
      closeRequest := Some(CoreClose(reason, shutdown));
    }

    // ------------------------------------------------------------- interpreting effects

    /** Effects the core just returned, before the slot acted on them. */
    ghost predicate Interpretable(effects: seq<Effect>, payload: Option<Frame>)
      reads this
    {
      && Grounded() && Indexed() && Streamed()
      && Armed(IndexAfter(index, effects), core.machine.pending)
      && (Plain(effects, payload, core.machine.epoch) || Scheduling(effects))
      && (payload.Some? ==> payload.value.retained <= limits.replyBytes)
      && |outcomes| + |OutcomeIds(effects)| + |world.permits| + |ActiveBag(core.machine.pending)| <= limits.Capacity()
      && Small(outcomes, limits.replyBytes)
      && taken + outcomes + Publications(effects) == Publications(world.trace)
    }

    /** Exactly one new deadline. */
    ghost predicate Scheduling(effects: seq<Effect>)
      reads this
    {
      |effects| == 1 && effects[0].ScheduleDeadline? && effects[0].operation !in index
    }

    /** One effect. The errors are those the caller's promises rule out. */
    method InterpretOne(e: Effect, unit: bool) returns (failure: Option<EngineError>)
      requires limits.Valid() && Indexed() && Small(outcomes, limits.replyBytes)
      requires !e.DiscardWrite? && !(unit && IsReply(e))
      requires e.ScheduleDeadline? ==> |index - {e.operation}| < limits.Capacity()
      requires e.PublishOutcome? ==>
        |outcomes| < limits.Capacity() && EngineOutcome(e.epoch, e.operation, e.outcome).Retained() <= limits.replyBytes
      modifies this`timers, this`deadlines, this`index, this`outcomes, this`recoveryOutcomes
      ensures Indexed() && Small(outcomes, limits.replyBytes) && failure.None?
      ensures index == IndexOne(old(index), e)
      ensures outcomes == old(outcomes) + PublicationOf(e) && recoveryOutcomes == old(recoveryOutcomes)
    {
      hide Timed;
      match e
      case ScheduleDeadline(_, operation, deadline) =>
        failure := ArmDeadline(operation, deadline);
      case DiscardWrite(_, _, _) =>
        return Some(Invariant(UnexpectedDiscardEffect));
      case CancelDeadline(_, operation) =>
        DisarmDeadline(operation);
        return None;
      case CloseEpoch(_, _) =>
        return None;
      case PublishOutcome(epoch, operation, outcome) =>
        if unit && outcome.Reply? {
          return Some(Invariant(UnexpectedUnitReply));
        }
        RetainedFits(outcomes, EngineOutcome(epoch, operation, outcome), limits.replyBytes, limits.Capacity());
        failure := Publish(EngineOutcome(epoch, operation, outcome));
    }

    /** Carries out the effects of one transition in order; nothing on the way can fail. */
    method InterpretEach(effects: seq<Effect>, unit: bool, ghost payload: Option<Frame>)
      returns (closing: Option<CloseReason>, failure: Option<EngineError>)
      requires Interpretable(effects, payload) && (unit ==> payload.None?)
      requires Scheduling(effects) ==> |index| < limits.Capacity()
      modifies this`timers, this`deadlines, this`index, this`outcomes, this`recoveryOutcomes
      ensures Owned() && closing == CloseReasonOf(effects) && failure.None? && recoveryOutcomes == old(recoveryOutcomes)
      ensures index == IndexAfter(old(index), effects) && outcomes == old(outcomes) + Publications(effects)
    {
      hide Timed, Sane, Armed, IndexAfter, Publications, OutcomeIds, ActiveBag, CloseReasonOf, IsReply, IndexOne;
      closing, failure := None, None;
      PrefixNone(index, effects);
      for i := 0 to |effects|
        invariant Indexed() && index == IndexAfter(old(index), effects[..i])
        invariant outcomes == old(outcomes) + Publications(effects[..i]) && Small(outcomes, limits.replyBytes)
        invariant closing == CloseReasonOf(effects[..i]) && failure.None?
        invariant recoveryOutcomes == old(recoveryOutcomes)
      {
        PrefixNext(old(index), effects, i);
        OneInterpretable(effects, payload, core.machine.epoch, limits.replyBytes, unit, i, old(Scheduling(effects)));
        if effects[i].CloseEpoch? {
          closing := Some(effects[i].reason);
        }
        if effects[i].ScheduleDeadline? {
          Shrinks(index, effects[i].operation);
        }
        var one := InterpretOne(effects[i], unit);
        if failure.None? {
          failure := one;
        }
      }
      assert effects[..|effects|] == effects;
      PublicationsCount(effects);
    }

    /** Effects first, then the closure they announced. */
    method Interpret(effects: seq<Effect>, unit: bool, ghost payload: Option<Frame>)
      returns (failure: Option<EngineError>)
      requires Interpretable(effects, payload) && (unit ==> payload.None?)
      requires Scheduling(effects) ==> |index| < limits.Capacity()
      requires CloseReasonOf(effects).Some? ==> closeRequest.None? && LastRank(events) <= 1
      modifies this`timers, this`deadlines, this`index, this`outcomes, this`recoveryOutcomes,
        this`lifecycle, this`recoveryEvents, this`events, this`eventSequence,
        this`drainDeadline, this`transportState, this`closeRequest
      ensures Owned() && recoveryOutcomes == old(recoveryOutcomes) && index == IndexAfter(old(index), effects)
      ensures outcomes == old(outcomes) + Publications(effects)
      ensures CloseReasonOf(effects).None? ==>
        failure.None? && StillOpen(old(transportState), old(closeRequest), old(drainDeadline), old(events))
      ensures CloseReasonOf(effects).Some? ==>
        Shutting(CloseReasonOf(effects).value, old(transportState), old(drainDeadline))
      ensures CloseReasonOf(effects).Some? ==>
        Excused(failure, CloseReasonOf(effects).value, old(transportState), old(drainDeadline))
      ensures failure == Some(Invariant(LifecyclePublication)) ==> limits.lifecycleEvents <= |old(lifecycle)|
    {
      hide Grounded, Indexed, Roomy, Delivered, Streamed, Scheduling, Armed, IndexAfter, Publications, OutcomeIds,
        ActiveBag, CloseReasonOf, IsReply, Plain, Small;
      LimitsValid();
      var closing: Option<CloseReason>;
      closing, failure := InterpretEach(effects, unit, payload);
      if closing.Some? {
        var last := FinishClose(closing.value);
        if failure.None? {
          failure := last;
        }
      }
    }

    lemma LimitsValid()
      requires Grounded()
      ensures limits.Valid() && core.machine.ledger.limits == limits.connection && world.core == core
    {
      hide Sane;
    }

    /** No closure was announced. */
    ghost predicate StillOpen(
      state: TransportState, directive: Option<CloseDirective>, drain: Option<Moment>, stream: seq<ConnectionEvent>)
      reads this
    {
      transportState == state && closeRequest == directive && drainDeadline == drain && events == stream
    }

    /** The closure is in the host's hands. */
    ghost predicate Shutting(reason: CloseReason, state: TransportState, drain: Option<Moment>)
      reads this
    {
      && transportState == TransportState.Closing && drainDeadline.None? && LastRank(events) == 2
      && closeRequest == Some(CoreClose(reason,
           if state.Open? && reason.Drained? && drain.Some? then SlotState.Pending(drain.value) else Immediate))
    }

    /** Closing fails only when the host let the stream fill up, or a caller asked an open slot that
        is not draining to close as drained. */
    static ghost predicate Excused(
      failure: Option<EngineError>, reason: CloseReason, state: TransportState, drain: Option<Moment>) {
      && (failure.None? || failure.value == Invariant(LifecyclePublication)
          || (failure.value == Invariant(MissingShutdownDeadline) && state.Open? && reason.Drained? && drain.None?))
      && (state.Open? && reason.Drained? && drain.None? ==> failure.Some?)
    }

    // ------------------------------------------------------------- one core step

    /** Takes over the core's new state; its effects are still to be interpreted. */
    method Take(next: CoreState, ghost after: World, effects: seq<Effect>, ghost payload: Option<Frame>)
      requires Grounded() && Indexed() && Roomy() && Delivered() && Streamed()
      requires SlotStep(index, world, after, effects, payload) && next == after.core
      requires payload.Some? ==> payload.value.retained <= limits.replyBytes
      modifies this`core, this`world
      ensures Interpretable(effects, payload) && Grounded() && core == next && world == after && !Scheduling(effects)
    {
      hide Timed, Sane, Armed, IndexAfter, Publications, OutcomeIds, ActiveBag, IsReply;
      core, world := next, after;
      PublicationsConcat(old(world).trace, effects);
    }

    /** A step of a staged slot: everything stays in step, or the stream was full. */
    method Settle(next: CoreState, ghost after: World, effects: seq<Effect>, unit: bool, ghost payload: Option<Frame>)
      returns (failure: Option<EngineError>)
      requires Grounded() && Indexed() && Roomy() && Delivered() && Streamed() && Staged()
      requires SlotStep(index, world, after, effects, payload) && next == after.core && (unit ==> payload.None?)
      requires Shut(world, after, effects, core.machine.gate.Draining?)
      requires payload.Some? ==> payload.value.retained <= limits.replyBytes
      modifies this`core, this`world, this`timers, this`deadlines, this`index, this`outcomes, this`recoveryOutcomes,
        this`lifecycle, this`recoveryEvents, this`events, this`eventSequence,
        this`drainDeadline, this`transportState, this`closeRequest
      ensures Owned() && core == next && world == after && recoveryOutcomes == old(recoveryOutcomes)
      ensures outcomes == old(outcomes) + Publications(effects)
      ensures failure.None? ==> Staged()
      ensures failure.Some? ==> failure.value == Invariant(LifecyclePublication)
      ensures CloseReasonOf(effects).None? ==>
        failure.None? && StillOpen(old(transportState), old(closeRequest), old(drainDeadline), old(events))
      ensures CloseReasonOf(effects).Some? ==> closeRequest.Some? && transportState == TransportState.Closing
      ensures Calmer(old(Watch()), Watch())
      ensures failure == Some(Invariant(LifecyclePublication)) ==> limits.lifecycleEvents <= |old(lifecycle)|
    {
      hide Fewer, Sane, Indexed, Roomy, Delivered, Streamed, SlotStep, CloseReasonOf, Interpretable, Armed, Scheduling;
      StepSteady(index, world, after, effects, payload);
      Take(next, after, effects, payload);
      failure := Interpret(effects, unit, payload);
    }

    static lemma StepSteady(index: DeadlineIndex, w: World, after: World, effects: seq<Effect>, payload: Option<Frame>)
      requires SlotStep(index, w, after, effects, payload)
      ensures after.core.poisoned.None? && after.permits == w.permits && Steady(after)
        && after.core.machine.epoch == w.core.machine.epoch
      ensures Fewer(IndexAfter(index, effects), index)
    {
      hide Sane, CommitIds, Armed, OutcomeIds, ActiveBag, IndexAfter;
      PlainFewer(index, effects, payload, w.core.machine.epoch);
    }

    // ------------------------------------------------------------- control

    /** Asks the core to close; a closed or closing slot stays as it is. */
    method CloseFor(reason: CloseReason) returns (failure: Option<EngineError>)
      requires Owned() && Phased() && (core.machine.phase.Live? || drainDeadline.None?)
      modifies this`core, this`world, this`timers, this`deadlines, this`index, this`outcomes, this`recoveryOutcomes,
        this`lifecycle, this`recoveryEvents, this`events, this`eventSequence,
        this`drainDeadline, this`transportState, this`closeRequest
      ensures Owned() && (failure.None? ==> Staged())
      ensures old(core.machine.phase.Live?) ==>
        Shutting(reason, old(transportState), old(drainDeadline)) && Excused(failure, reason,
          old(transportState), old(drainDeadline))
      ensures !old(core.machine.phase.Live?) ==>
        failure.None? && StillOpen(old(transportState), old(closeRequest), old(drainDeadline),
          old(events)) && core == old(core)
      ensures outcomes == old(outcomes) + (if old(core.machine.phase.Live?)
        then Publications(ClosingTrace(old(core.machine), reason, None)) else [])
      ensures failure == Some(Invariant(LifecyclePublication)) ==> limits.lifecycleEvents <= |old(lifecycle)|
      ensures Calmer(old(Watch()), Watch()) && Onward(old(Watch()), Watch())
    {
      hide ClosingTrace, Publications, Fewer, Indexed, Roomy, Delivered, Streamed, Sane, Armed, IndexAfter,
        CloseReasonOf, Core.Apply, SlotStep, Interpretable;
      CloseSlot(index, world, reason);
      var (c, r) := Core.Apply(core, CloseRequested(core.machine.epoch, reason));
      ghost var after := Observed(world, c, r);
      StepSteady(index, world, after, r.value.effects, None);
      Take(c, after, r.value.effects, None);
      NoReason();
      failure := Interpret(r.value.effects, true, None);
    }

    static lemma NoReason()
      ensures CloseReasonOf([]).None? && Publications([]) == []
    {
    }

    method CloseMalformed() returns (failure: Option<EngineError>)
      requires Owned() && Staged()
      modifies this`core, this`world, this`timers, this`deadlines, this`index, this`outcomes, this`recoveryOutcomes,
        this`lifecycle, this`recoveryEvents, this`events, this`eventSequence,
        this`drainDeadline, this`transportState, this`closeRequest
      ensures Owned() && (failure.None? ==> Staged())
      ensures failure.Some? ==> failure.value == Invariant(LifecyclePublication)
      ensures old(core.machine.phase.Live?) ==>
        Shutting(CloseReason.MalformedReply, old(transportState), old(drainDeadline))
      ensures !old(core.machine.phase.Live?) ==>
        StillOpen(old(transportState), old(closeRequest), old(drainDeadline), old(events)) && core == old(core)
      ensures Calmer(old(Watch()), Watch()) && Onward(old(Watch()), Watch())
    {
      hide Fewer, Indexed, Roomy, Delivered, Streamed, Sane, Armed, IndexAfter, CloseReasonOf, Core.Apply, SlotStep,
        Interpretable;
      MalformedSlot(index, world);
      var (c, r) := Core.Apply(core, ReplyMalformed(core.machine.epoch));
      ghost var after := Observed(world, c, r);
      StepSteady(index, world, after, r.value.effects, None);
      Take(c, after, r.value.effects, None);
      NoReason();
      failure := Interpret(r.value.effects, true, None);
    }

    /** Publishes one edge of an otherwise settled slot. */
    method PublishEdge(event: ConnectionEvent) returns (failure: Option<EngineError>)
      requires Owned() && event.sequence == eventSequence + 1 && LastRank(events) < event.Rank()
      modifies this`lifecycle, this`recoveryEvents, this`events, this`eventSequence
      ensures Owned() && events == old(events) + [event] && event.sequence == |events|
      ensures failure.Some? ==> failure.value == Invariant(LifecyclePublication)
      ensures failure.Some? <==> |old(lifecycle)| >= limits.lifecycleEvents
    {
      hide Grounded, Indexed, Roomy, Delivered, Armed;
      LimitsValid();
      failure := PublishEvent(event);
    }

    // ------------------------------------------------------------- the fail-closed latch

    /** The first fatal error is final: the transport is to be dropped. */
    method Latch(error: EngineError)
      requires Owned()
      modifies this`failed, this`drainDeadline, this`closeRequest
      ensures Owned() && failed && closeRequest == Some(Abort)
    {
      hide Sane, Timed, Armed, Publications, ActiveBag, Small;
      failed := true;
      drainDeadline := None;
      closeRequest := Some(Abort);
    }

    method Cancel(operation: OperationId) returns (r: Result<CancelOutcome, EngineError>)
      requires Valid()
      modifies this
      ensures Onward(old(Watch()), Watch())
      ensures Valid() && (r.Failure? ==> r.error.Explained())
      ensures r.Success? ==> !old(failed) && !failed && r.value == CancelAnswer(old(core.machine.pending), operation)
      ensures r.Success? ==> core == Core.Apply(old(core), Input.Cancel(old(core.machine.epoch), operation)).0
    {
      hide Grounded, Indexed, Roomy, Delivered, Streamed, Armed, SlotStep, Shut, CloseReasonOf, Core.Apply,
        CancelAnswer, Machine.Apply, Sane;
      if failed {
        return Failure(OwnerFailed);
      }
      GroundedSteady();
      CancelSlot(index, world, operation);
      AnswerKept(world, Input.Cancel(core.machine.epoch, operation));
      MachineAnswers(core.machine);
      var (c, t) := Core.Apply(core, Input.Cancel(core.machine.epoch, operation));
      var failure := Settle(c, Observed(world, c, t), t.value.effects, true, None);
      if failure.Some? {
        Latch(failure.value);
        return Failure(failure.value);
      }
      return Success(t.value.cancelled.value);
    }

    lemma GroundedSteady()
      requires Owned() && core.poisoned.None?
      ensures Steady(world) && world.core == core && core.machine.ledger.limits == limits.connection && limits.Valid()
      ensures Grounded() && Indexed() && Roomy() && Delivered() && Streamed() && Armed(index, core.machine.pending)
      ensures core.machine.phase.Live? <==> !core.machine.gate.GateClosed?
      ensures core.machine.pending != [] ==> core.machine.phase.Live?
    {
      hide Inv, Timed, Armed, Publications, DistinctIds, ActiveBag, Small;
      var g := SteadyGhosts(world);
    }

    /** A drain keeps its absolute deadline for the graceful shutdown that may follow it. */
    /** A drain began and waits for its operations. */
    predicate Unhurried(before: Machine.MachineState)
      reads this`core
    {
      core.machine.pending == before.pending && core.machine.phase.Live? && core.machine.epoch == before.epoch
    }

    method BeginDrain(deadline: Moment) returns (r: Result<bool, EngineError>)
      requires Valid()
      modifies this
      ensures Onward(old(Watch()), Watch())
      ensures Valid() && (r.Failure? ==> r.error.Explained())
      ensures r.Success? ==> !failed && (r.value <==> old(core.machine.phase.Live? && !core.machine.gate.Draining?))
      ensures r.Success? && r.value && old(core.machine.pending) != [] ==>
        drainDeadline == Some(deadline) && closeRequest.None?
      ensures r.Success? && r.value && old(core.machine.pending) != [] ==>
        Unhurried(old(core.machine)) && transportState == old(transportState)
      ensures r.Success? && r.value && old(core.machine.pending) == [] ==>
        closeRequest == Some(CoreClose(Drained, if old(transportState).Open? then SlotState.Pending(deadline) else Immediate))
      ensures !old(failed) && old(core.machine.phase.Live? && !core.machine.gate.Draining? && core.machine.pending != []) ==>
        r == Success(true)
    {
      hide Owned, Staged;
      if failed {
        return Failure(OwnerFailed);
      }
      var applied, failure := BeginDrainInner(deadline);
      if failure.Some? {
        Latch(failure.value);
        return Failure(failure.value);
      }
      return Success(applied);
    }

    method BeginDrainInner(deadline: Moment) returns (applied: bool, failure: Option<EngineError>)
      requires Owned() && Staged()
      modifies this`core, this`world, this`timers, this`deadlines, this`index, this`outcomes, this`recoveryOutcomes,
        this`lifecycle, this`recoveryEvents, this`events, this`eventSequence,
        this`drainDeadline, this`transportState, this`closeRequest
      ensures Onward(old(Watch()), Watch())
      ensures Owned() && (failure.None? ==> Staged())
      ensures failure.Some? ==> failure.value == Invariant(LifecyclePublication)
      ensures applied <==> old(core.machine.phase.Live? && !core.machine.gate.Draining?)
      ensures applied && old(core.machine.pending) != [] ==> drainDeadline == Some(deadline) && closeRequest.None?
      ensures applied && old(core.machine.pending) != [] ==>
        Unhurried(old(core.machine)) && transportState == old(transportState)
        && failure.None?
      ensures applied && old(core.machine.pending) == [] ==>
        closeRequest == Some(CoreClose(Drained, if old(transportState).Open? then SlotState.Pending(deadline) else Immediate))
    {
      hide Grounded, Indexed, Roomy, Delivered, Streamed, Sane, Armed, IndexAfter, CloseReasonOf, SlotStep, Core.Apply,
        Interpretable, Fewer;
      GroundedSteady();
      DrainSlot(index, world);
      var (c, t) := Core.Apply(core, Input.BeginDrain(core.machine.epoch));
      ghost var after := Observed(world, c, t);
      StepSteady(index, world, after, t.value.effects, None);
      Take(c, after, t.value.effects, None);
      applied := t.value.disposition.Applied?;
      NoReason();
      if applied {
        SetDrain(deadline, t.value.effects);
      }
      failure := Interpret(t.value.effects, true, None);
    }

    method SetDrain(deadline: Moment, ghost effects: seq<Effect>)
      requires Interpretable(effects, None) && !Scheduling(effects)
      modifies this`drainDeadline
      ensures Interpretable(effects, None) && !Scheduling(effects) && drainDeadline == Some(deadline)
    {
      hide Sane, Timed, Armed, IndexAfter, Publications, OutcomeIds, ActiveBag, Small, Plain;
      drainDeadline := Some(deadline);
    }

    static predicate UnderWay(directive: Option<CloseDirective>) {
      directive.Some? && directive.value.CoreClose?
      && (directive.value.shutdown.Pending? || directive.value.shutdown.Started?)
    }

    /** Preempts a graceful shutdown still under way. */
    method ForceShutdown() returns (forced: bool)
      requires Owned() && Staged()
      modifies this`closeRequest
      ensures Owned() && Staged()
      ensures forced <==> UnderWay(old(closeRequest))
      ensures closeRequest == if forced then Some(CoreClose(old(closeRequest).value.reason, Immediate)) else old(closeRequest)
    {
      hide Sane, Timed, Armed, Publications, ActiveBag, Small;
      if !UnderWay(closeRequest) {
        return false;
      }
      closeRequest := Some(CoreClose(closeRequest.value.reason, Immediate));
      return true;
    }

    /** The directive a forced closure leaves: it preempts a shutdown under way, and grants a graceful
        one only as drained, by the deadline of a drain begun before, finished or not. */
    static function Finalized(
      reason: CloseReason, live: bool, state: TransportState, drain: Option<Moment>, directive: Option<CloseDirective>)
      : Option<CloseDirective>
    {
      if UnderWay(directive) then Some(CoreClose(directive.value.reason, Immediate))
      else if !live then directive
      else Some(CoreClose(reason,
        if state.Open? && reason.Drained? && drain.Some? then SlotState.Pending(drain.value) else Immediate))
    }

    /** Forced closure. Asking an open slot that is not draining to close as drained is the one
        request for which no shutdown deadline exists, and it always fails the slot. */
    method Finalize(reason: CloseReason) returns (r: Result<bool, EngineError>)
      requires Valid()
      modifies this
      ensures Onward(old(Watch()), Watch())
      ensures Valid() && (r.Failure? ==> !r.error.Unexplained())
      ensures !old(failed) && old(Deadlineless(reason)) ==> r.Failure? && failed
      ensures r == Failure(Invariant(MissingShutdownDeadline)) ==> !old(failed) && old(Deadlineless(reason))
      ensures !old(failed) && |old(lifecycle)| < limits.lifecycleEvents ==>
        (r == Failure(Invariant(MissingShutdownDeadline)) <==> old(Deadlineless(reason)))
      ensures r.Success? ==>
        closeRequest == Finalized(reason, old(core.machine.phase.Live?), old(transportState),
          old(drainDeadline), old(closeRequest))
      ensures r.Success? ==> !failed && (r.value <==> old(core.machine.phase.Live?) || UnderWay(old(closeRequest)))
      ensures !old(failed) && |old(lifecycle)| < limits.lifecycleEvents && !old(Deadlineless(reason)) ==> r.Success?
      ensures !old(failed) && old(core.machine.phase.Live?) ==>
        outcomes == old(outcomes) + Publications(ClosingTrace(old(core.machine), reason, None))
    {
      hide Owned, Staged, Fewer, ClosingTrace, Publications;
      if failed {
        return Failure(OwnerFailed);
      }
      var applied, failure := FinalizeInner(reason);
      if failure.Some? {
        Latch(failure.value);
        return Failure(failure.value);
      }
      return Success(applied);
    }

    /** Closing for this reason calls for a graceful shutdown no drain has set a deadline for. */
    predicate Deadlineless(reason: CloseReason)
      reads this`transportState, this`drainDeadline
    {
      transportState.Open? && reason.Drained? && drainDeadline.None?
    }

    method FinalizeInner(reason: CloseReason) returns (applied: bool, failure: Option<EngineError>)
      requires Owned() && Staged()
      modifies this`core, this`world, this`timers, this`deadlines, this`index, this`outcomes, this`recoveryOutcomes,
        this`lifecycle, this`recoveryEvents, this`events, this`eventSequence,
        this`drainDeadline, this`transportState, this`closeRequest
      ensures Onward(old(Watch()), Watch())
      ensures Owned() && (failure.None? ==> Staged())
      ensures failure.None? || failure == Some(Invariant(LifecyclePublication))
        || (failure == Some(Invariant(MissingShutdownDeadline)) && old(Deadlineless(reason)))
      ensures old(Deadlineless(reason)) ==> failure.Some?
      ensures failure == Some(Invariant(LifecyclePublication)) ==> limits.lifecycleEvents <= |old(lifecycle)|
      ensures closeRequest == Finalized(reason, old(core.machine.phase.Live?), old(transportState),
          old(drainDeadline), old(closeRequest))
      ensures applied <==> old(core.machine.phase.Live?) || UnderWay(old(closeRequest))
      ensures old(core.machine.phase.Live?) ==>
        outcomes == old(outcomes) + Publications(ClosingTrace(old(core.machine), reason, None))
    {
      hide Owned, Fewer, ClosingTrace, Publications, LastRank;
      failure := None;
      applied := ForceShutdown();
      if applied {
        return;
      }
      applied := core.machine.phase.Live?;
      failure := CloseFor(reason);
    }

    method OpenAdmission() returns (r: Result<bool, EngineError>)
      requires Valid()
      modifies this
      ensures Onward(old(Watch()), Watch())
      ensures Valid() && (r.Failure? ==> r.error.Explained())
      ensures r.Success? ==> !failed
      ensures r.Success? ==> (r.value <==> old(transportState).Open? && old(core.machine.gate).SessionOnly?)
      ensures r.Success? && r.value ==>
        core.machine.gate == AdmissionGate.Open && events == old(events) + [AdmissionOpened(|old(events)| + 1)]
      ensures r.Success? && !r.value ==> events == old(events)
    {
      hide Owned, Staged;
      if failed {
        return Failure(OwnerFailed);
      }
      if !transportState.Open? {
        return Success(false);
      }
      var applied, failure := OpenAdmissionInner();
      if failure.Some? {
        Latch(failure.value);
        return Failure(failure.value);
      }
      return Success(applied);
    }

    /** Steps of the core that return no effects. */
    method ApplyQuiet(input: Input) returns (applied: bool)
      requires Owned() && core.poisoned.None? && (input.OpenAdmission? || input.EpochClosed?)
      requires input.epoch == core.machine.epoch
      modifies this`core, this`world, this`timers, this`deadlines, this`index, this`outcomes, this`recoveryOutcomes,
        this`lifecycle, this`recoveryEvents, this`events, this`eventSequence,
        this`drainDeadline, this`transportState, this`closeRequest
      ensures Owned() && core.poisoned.None?
      ensures StillOpen(old(transportState), old(closeRequest), old(drainDeadline), old(events))
      ensures world.wire == old(world.wire)
      ensures input.OpenAdmission? ==> (applied <==> old(core.machine.phase.Live? && core.machine.gate.SessionOnly?))
      ensures input.OpenAdmission? ==> core.machine.phase == old(core.machine.phase)
      ensures input.OpenAdmission? ==>
        core.machine.gate == if applied then AdmissionGate.Open else old(core.machine.gate)
      ensures input.EpochClosed? && old(core.machine.phase.Closing?) ==> core.machine.phase.Closed?
    {
      hide Indexed, Roomy, Delivered, Streamed, Sane, Armed, IndexAfter, CloseReasonOf, SlotStep, Core.Apply,
        Interpretable, Machine.Apply, Fewer;
      GroundedSteady();
      QuietSlot(index, world, input);
      AnswerKept(world, input);
      MachineAnswers(core.machine);
      var (c, t) := Core.Apply(core, input);
      ghost var after := Observed(world, c, t);
      StepSteady(index, world, after, t.value.effects, None);
      Take(c, after, t.value.effects, None);
      NoReason();
      var failure := Interpret(t.value.effects, true, None);
      applied := t.value.disposition.Applied?;
    }

    method OpenAdmissionInner() returns (applied: bool, failure: Option<EngineError>)
      requires Owned() && Staged() && transportState.Open?
      modifies this`core, this`world, this`timers, this`deadlines, this`index, this`outcomes, this`recoveryOutcomes,
        this`lifecycle, this`recoveryEvents, this`events, this`eventSequence,
        this`drainDeadline, this`transportState, this`closeRequest
      ensures Kept(failure) && Onward(old(Watch()), Watch())
      ensures applied <==> old(core.machine.gate).SessionOnly?
      ensures applied ==>
        core.machine.gate == AdmissionGate.Open && events == old(events) + [AdmissionOpened(|old(events)| + 1)]
      ensures !applied ==> events == old(events)
    {
      hide Owned;
      failure := None;
      applied := ApplyQuiet(Input.OpenAdmission(core.machine.epoch));
      if applied {
        failure := PublishEdge(AdmissionOpened(eventSequence + 1));
      }
    }

    /** The host released the transport: the epoch is over, and said so once. */
    method SettleTransportClosed() returns (settled: bool)
      requires Valid()
      modifies this
      ensures Onward(old(Watch()), Watch())
      ensures Valid() && (settled <==> old(closeRequest).Some? && old(closeRequest).value.SettlementReady())
      ensures settled ==> transportState.Closed? && closeRequest.None? && drainDeadline.None?
      ensures settled && !old(failed) ==>
        core.machine.phase.Closed? && LastRank(events) == 3 && |events| == |old(events)| + 1
      ensures !settled ==> core == old(core) && events == old(events)
    {
      hide Sane, Timed, Armed, Publications, ActiveBag, Small;
      if closeRequest.None? || !closeRequest.value.SettlementReady() {
        return false;
      }
      if closeRequest.value.Abort? {
        AbortTransport();
        return true;
      }
      var reason := closeRequest.value.reason;
      var failure := ConfirmClosed(reason);
      if failure.Some? {
        Latch(failure.value);
        AbortTransport();
      }
      return true;
    }

    method AbortTransport()
      requires Owned()
      modifies this`transportState, this`drainDeadline, this`closeRequest
      ensures Owned() && transportState.Closed? && closeRequest.None? && drainDeadline.None?
      ensures Onward(old(Watch()), Watch())
    {
      hide Sane, Timed, Armed, Publications, ActiveBag, Small;
      transportState, drainDeadline, closeRequest := TransportState.Closed, None, None;
    }

    method ConfirmClosed(reason: CloseReason) returns (failure: Option<EngineError>)
      requires Owned() && Staged() && closeRequest.Some?
      modifies this`core, this`world, this`timers, this`deadlines, this`index, this`outcomes, this`recoveryOutcomes,
        this`lifecycle, this`recoveryEvents, this`events, this`eventSequence,
        this`drainDeadline, this`transportState, this`closeRequest
      ensures Kept(failure) && Onward(old(Watch()), Watch())
      ensures transportState.Closed? && closeRequest.None? && drainDeadline.None? && core.machine.phase.Closed?
      ensures LastRank(events) == 3 && |events| == |old(events)| + 1
    {
      hide Owned;
      transportState, closeRequest := TransportState.Closed, None;
      var applied := ApplyQuiet(Input.EpochClosed(core.machine.epoch));
      failure := PublishEdge(ClosedEvent(eventSequence + 1, reason));
    }

    // ------------------------------------------------------------- admission

    /** Takes over a core that only holds other permits. */
    method Adopt(next: CoreState, ghost after: World)
      requires Owned() && core.poisoned.None? && next == after.core && Steady(after) && SameRecords(world, after)
      requires |outcomes| + |after.permits| + |ActiveBag(core.machine.pending)| <= limits.Capacity()
      modifies this`core, this`world
      ensures Owned() && core == next && world == after && core.poisoned.None?
    {
      hide Sane, Timed, Armed, Publications, ActiveBag, Small;
      core, world := next, after;
    }

    /** Two owners differ in their permits and in nothing a slot tracks. */
    static ghost predicate SameRecords(w: World, after: World) {
      var m, m' := w.core.machine, after.core.machine;
      after.trace == w.trace && after.wire == w.wire && m'.pending == m.pending && m'.phase == m.phase && m'.gate == m.gate
      && m'.epoch == m.epoch && m'.ledger.limits == m.ledger.limits
    }

    /** Reserves policy capacity, and with it a place for the outcome to come. */
    method Reserve(now: Moment, options: Options) returns (r: Result<Permit, ReserveError>)
      requires Valid()
      modifies this`core, this`world
      ensures Valid() && Onward(old(Watch()), Watch())
      ensures core.machine.gate == old(core.machine.gate) && core.machine.epoch == old(core.machine.epoch)
      ensures core.machine.phase == old(core.machine.phase) && core.writer == old(core.writer)
      ensures !old(failed) && |outcomes| + old(core.machine.ledger.operations) < limits.Capacity() ==>
        r.Success? == Granted(old(core.machine), now, options).Some?
      ensures r.Success? ==> !old(failed) && Granted(old(core.machine), now, options) == Some(r.value)
      ensures r.Success? ==> |outcomes| + old(core.machine.ledger.operations) < limits.Capacity()
      ensures r.Success? ==>
        world.permits == old(world.permits) + [r.value] && core.machine.pending == old(core.machine.pending)
      ensures r.Failure? ==> world.permits == old(world.permits) && core.machine.pending == old(core.machine.pending)
      ensures r.Failure? ==> (r.error == OwnerPoisoned <==> old(failed))
    {
      hide Owned, ActiveBag, StepReserve, Core.Reserve, Machine.Reserve, DropPermit, WithoutPermit, Steady, Sane,
        RemoveAt;
      if failed {
        return Failure(OwnerPoisoned);
      }
      OwnedSteady();
      ReserveSlot(world, now, options);
      var (c, reserved) := Core.Reserve(core, now, options);
      ghost var after := StepReserve(world, now, options);
      if reserved.Failure? {
        return Failure(reserved.error);
      }
      StepReserveWire(world, now, options);
      Counted(after);
      Counted(world);
      if |outcomes| + c.machine.ledger.operations > limits.Capacity() {
        ghost var last := |world.permits|;
        RemovedLast(world.permits, reserved.value);
        DropSlot(after, last);
        DropCore(after, last);
        Adopt(WithoutPermit(c, reserved.value), DropPermit(after, last));
        return Failure(OperationCapacity);
      }
      Adopt(c, after);
      return Success(reserved.value);
    }

    /** What the policy by itself would grant. */
    static function Granted(m: Machine.MachineState, now: Moment, options: Options): Option<Permit> {
      if m.ledger.limits.Valid() && m.ledger.limits.InSpace(m.ledger.nextKey) && Machine.Reserve(m, now, options).1.Success?
      then Some(Machine.Reserve(m, now, options).1.value) else None
    }

    lemma OwnedSteady()
      requires Owned() && core.poisoned.None?
      ensures Steady(world) && world.core == core && core.machine.ledger.limits == limits.connection && limits.Valid()
      ensures |outcomes| + |world.permits| + |ActiveBag(core.machine.pending)| <= limits.Capacity()
    {
      GroundedSteady();
      hide Sane, Timed, Armed, Publications, ActiveBag, Small;
    }

    lemma StagedSteady()
      requires Owned() && Staged()
      ensures Steady(world) && world.core == core && limits.Valid()
    {
      hide Owned;
      OwnedSteady();
    }

    static lemma StepReserveWire(w: World, now: Moment, options: Options)
      requires w.core.machine.ledger.limits.Valid()
      requires w.core.machine.ledger.limits.InSpace(w.core.machine.ledger.nextKey)
      ensures StepReserve(w, now, options).wire == w.wire
    {
      hide Core.Reserve;
    }

    static lemma Counted(w: World)
      requires Steady(w)
      ensures w.core.machine.ledger.operations == |w.permits| + |w.core.machine.pending|
      ensures |ActiveBag(w.core.machine.pending)| <= |w.core.machine.pending|
    {
      hide Sane, ActiveBag;
      OperationsCount(w);
      PendingBound(w);
    }

    static lemma RemovedLast(permits: seq<Permit>, permit: Permit)
      ensures RemoveAt(permits + [permit], |permits|) == permits
    {
    }

    /** Dropping a permit returns its place. */
    method DropReserved(permit: Permit, ghost i: nat)
      requires Valid() && !failed && i < |world.permits| && world.permits[i] == permit
      modifies this`core, this`world
      ensures Valid() && world.permits == RemoveAt(old(world.permits), i) && Onward(old(Watch()), Watch())
    {
      hide Owned, ActiveBag, DropPermit, WithoutPermit, Steady;
      OwnedSteady();
      DropSlot(world, i);
      DropCore(world, i);
      Adopt(WithoutPermit(core, permit), DropPermit(world, i));
    }

    /** An accepted frame's deadline always finds a place; the permit's place becomes the
        operation's. A refusal changes nothing. */
    method Commit(permit: Permit, ghost i: nat, frame: Frame) returns (r: Result<OperationId, CommitRefusal>)
      requires Valid() && !failed && i < |world.permits| && world.permits[i] == permit
      modifies this
      ensures Onward(old(Watch()), Watch())
      ensures Valid() && !failed
      ensures r.Failure? ==>
        r.error.Policy? && r.error.kind != Machine.CommitOwnerPoisoned && core == old(core) && index == old(index)
      ensures r.Success? <==> Machine.CommitFailure(old(core.machine), permit, frame.retained).None?
      ensures r.Success? ==> r.value == permit.operation && index == old(index)[permit.operation := permit.deadline]
      ensures r.Success? ==>
        core.machine.pending == old(core.machine.pending) + [Machine.Accepted(permit, frame.retained)]
      ensures r.Success? ==> core.writer.frames == old(core.writer.frames) + [Admission.Queued(permit, frame)]
      ensures core.machine.gate == old(core.machine.gate) && core.machine.phase == old(core.machine.phase)
      ensures core.machine.epoch == old(core.machine.epoch)
      ensures outcomes == old(outcomes)
      ensures StillOpen(old(transportState), old(closeRequest), old(drainDeadline), old(events))
    {
      hide Sane, Timed, Armed, IndexAfter, Publications, OutcomeIds, ActiveBag, CloseReasonOf, IsReply, Plain,
        SlotStep, Core.Commit, Small, StepCommit, Interpretable;
      GroundedSteady();
      CommitSlot(index, world, i, frame);
      IndexRoom();
      var (c, committed) := Core.Commit(core, permit, frame);
      if committed.Failure? {
        return Failure(committed.error);
      }
      ghost var after := StepCommit(world, i, frame);
      ghost var e := ScheduleDeadline(core.machine.epoch, permit.operation, permit.deadline);
      TakeCommitted(c, after, i, frame, committed.value.effects);
      SilentSchedule(e);
      var failure := Interpret(committed.value.effects, true, None);
      IndexSingle(old(index), e);
      return Success(permit.operation);
    }

    /** A live permit leaves a place in the deadline index. */
    lemma IndexRoom()
      requires Owned()
      ensures |index| + |world.permits| <= limits.Capacity()
    {
      PendingBound(world);
      IndexSize(index, core.machine.pending);
      hide Sane, Timed, Publications, ActiveBag, Small;
    }

    static lemma SilentSchedule(e: Effect)
      requires e.ScheduleDeadline?
      ensures CloseReasonOf([e]).None? && OutcomeIds([e]) == multiset{} && Publications([e]) == []
    {
      assert [e][..0] == [];
    }

    method TakeCommitted(next: CoreState, ghost after: World, ghost i: nat, ghost frame: Frame, effects: seq<Effect>)
      requires Grounded() && Indexed() && Roomy() && Delivered() && Streamed() && i < |world.permits|
      requires CommittedTo(index, world, i, frame, after, effects) && next == after.core
      modifies this`core, this`world
      ensures Interpretable(effects, None) && core == next && world == after && Scheduling(effects)
      ensures effects == [ScheduleDeadline(old(core.machine.epoch), old(world).permits[i].operation,
          old(world).permits[i].deadline)]
    {
      hide Timed, Sane, Armed, IndexAfter, Publications, OutcomeIds, ActiveBag, IsReply, Small;
      core, world := next, after;
      PublicationsConcat(old(world).trace, effects);
      SilentSchedule(effects[0]);
      assert effects == [effects[0]];
    }

    // ------------------------------------------------------------- draining

    method DrainOutcomes() returns (drained: seq<EngineOutcome>)
      requires Valid()
      modifies this`outcomes, this`taken
      ensures Valid() && drained == old(outcomes) && outcomes == []
    {
      hide Sane, Timed, Armed, Publications, ActiveBag;
      drained := outcomes;
      outcomes, taken := [], taken + outcomes;
      assert taken + outcomes == old(taken) + old(outcomes);
    }

    method DrainEvents() returns (drained: seq<ConnectionEvent>)
      requires Valid()
      modifies this`lifecycle
      ensures Valid() && drained == old(lifecycle) && lifecycle == []
    {
      hide Sane, Timed, Armed, Publications, ActiveBag, Small;
      drained := lifecycle;
      lifecycle := [];
    }

    // ------------------------------------------------------------- deadlines

    /** Some instant this slot must act at. */
    ghost predicate DueAt(m: Moment)
      reads this
    {
      || (exists i :: 0 <= i < |core.machine.pending| && core.machine.pending[i].deadline == m)
      || (transportState.Connecting? && m == connectDeadline)
      || drainDeadline == Some(m)
      || (closeRequest.Some? && closeRequest.value.ShutdownDeadline() == Some(m))
    }

    static function Sooner(a: Option<Moment>, b: Option<Moment>): Option<Moment> {
      if a.None? then b else if b.None? || a.value <= b.value then a else b
    }

    /** The earliest of every pending operation's original deadline, the connect, drain and shutdown
        deadlines. */
    method NextDeadline() returns (next: Option<Moment>)
      requires Owned()
      ensures next.None? ==> forall m :: !DueAt(m)
      ensures next.Some? ==> DueAt(next.value) && forall m :: DueAt(m) ==> next.value <= m
    {
      hide Sane, Publications, ActiveBag, Small, Timed;
      var token := NextTimer(timers);
      EarliestPending(token);
      next := if token.Some? then Some(timers.entries[token.value].deadline) else None;
      if transportState.Connecting? {
        next := Sooner(next, Some(connectDeadline));
      }
      next := Sooner(next, drainDeadline);
      if closeRequest.Some? {
        next := Sooner(next, closeRequest.value.ShutdownDeadline());
      }
    }

    /** The earliest timer is the earliest pending operation. */
    lemma EarliestPending(token: Option<Token>)
      requires Owned()
      requires (token.None? <==> timers.entries == map[]) && (token.Some? ==> timers.Earliest(token.value))
      ensures token.None? <==> core.machine.pending == []
      ensures token.Some? ==>
        exists i :: 0 <= i < |core.machine.pending|
          && core.machine.pending[i].deadline == timers.entries[token.value].deadline
      ensures token.Some? ==>
        forall i :: 0 <= i < |core.machine.pending| ==>
          timers.entries[token.value].deadline <= core.machine.pending[i].deadline
    {
      hide Timed, Armed, Sane, Publications, ActiveBag, Small;
      if token.Some? {
        var i := NextPending(token.value);
      }
      if core.machine.pending != [] {
        var t := PendingTimer(0);
      }
      forall i | 0 <= i < |core.machine.pending|
        ensures token.Some? && timers.entries[token.value].deadline <= core.machine.pending[i].deadline {
        var t := PendingTimer(i);
      }
    }

    /** On any slot, failed or not, timers and pending records are in bijection. */
    lemma TimersMirrorPending()
      requires Valid()
      ensures Mirrors(timers, core.machine.pending, core.machine.epoch) && |core.machine.pending| <= limits.Capacity()
    {
      hide Sane, Timed, Armed, Publications, ActiveBag, Small, DistinctIds, Mirrors;
      PendingBound(world);
      TimersMirror(timers, deadlines, index, core.machine.epoch, core.machine.pending);
    }

    lemma NextPending(token: Token) returns (i: nat)
      requires Indexed() && Armed(index, core.machine.pending) && token in timers.entries
      ensures i < |core.machine.pending| && core.machine.pending[i].deadline == timers.entries[token].deadline
    {
      hide Timed;
      var j := TimedToken(timers, deadlines, index, core.machine.epoch, token);
      i :| 0 <= i < |core.machine.pending| && core.machine.pending[i].id == deadlines[j].operation;
    }

    lemma PendingTimer(i: nat) returns (t: Token)
      requires Indexed() && Armed(index, core.machine.pending) && i < |core.machine.pending|
      ensures t in timers.entries && timers.entries[t].deadline == core.machine.pending[i].deadline
    {
      assert HasEntry(deadlines, core.machine.pending[i].id);
      var j :| 0 <= j < |deadlines| && deadlines[j].operation == core.machine.pending[i].id;
      assert EntryTimed(timers, deadlines[j], index, core.machine.epoch);
      t := deadlines[j].token;
    }

    // ------------------------------------------------------------- deadline progression

    /** The fired timer is gone from queue, vector and index, its record not yet. */
    ghost predicate Fired(i: nat, now: Moment)
      reads this
    {
      && Grounded() && Indexed() && Roomy() && Delivered() && Streamed() && Staged()
      && i < |core.machine.pending| && Armed(index, RemoveAt(core.machine.pending,
        i)) && core.machine.pending[i].deadline <= now
    }

    /** Takes the earliest timer if it is due. */
    method PopDue(now: Moment) returns (timer: Option<Timer>, ghost i: nat)
      requires Owned() && Staged()
      modifies this`timers, this`deadlines, this`index
      ensures timer.None? ==> Owned() && !TimerDue(now) && index == old(index)
      ensures timer.Some? ==>
        Fired(i, now) && timer.value.operation == core.machine.pending[i].id && timer.value.epoch == core.machine.epoch
      ensures timer.Some? ==>
        Fewer(index, old(index)) && EarliestRecord(core.machine.pending, i) && core.machine.pending[i].deadline <= now
    {
      hide Grounded, Roomy, Delivered, Streamed, Timed, Armed, Staged, RemoveAt;
      i := 0;
      var token := NextTimer(timers);
      NoneDue(token, now);
      EarliestPending(token);
      if token.None? || timers.entries[token.value].deadline > now {
        return None, 0;
      }
      var fired := timers.entries[token.value];
      ghost var j := TimedToken(timers, deadlines, index, core.machine.epoch, token.value);
      TimedRemove(timers, deadlines, index, core.machine.epoch, j);
      i := FiredRecord(token.value, j);
      timers := timers.Cancel(token.value);
      var at := 0;
      while at < |deadlines| && deadlines[at].token != token.value
        invariant 0 <= at <= j
      {
        at := at + 1;
      }
      index := index - {deadlines[at].operation};
      deadlines := SwapRemove(deadlines, at);
      return Some(fired), i;
    }

    static ghost predicate EarliestRecord(pending: seq<Record>, i: nat) {
      i < |pending| && forall k :: 0 <= k < |pending| ==> pending[i].deadline <= pending[k].deadline
    }

    lemma NoneDue(token: Option<Token>, now: Moment)
      requires Indexed() && (token.None? <==> timers.entries == map[]) && (token.Some? ==> timers.Earliest(token.value))
      ensures TimerDue(now) <==> token.Some? && timers.entries[token.value].deadline <= now
    {
      if token.Some? {
        var j := TimedToken(timers, deadlines, index, core.machine.epoch, token.value);
      }
      if TimerDue(now) {
        var id :| id in index && index[id] <= now;
        assert HasEntry(deadlines, id);
        var k :| 0 <= k < |deadlines| && deadlines[k].operation == id;
        assert EntryTimed(timers, deadlines[k], index, core.machine.epoch);
      }
    }

    lemma FiredRecord(token: Token, j: nat) returns (i: nat)
      requires Owned() && j < |deadlines| && deadlines[j].token == token && token in timers.entries
      requires deadlines[j].operation in index
      requires timers.entries[token] == Timer(index[deadlines[j].operation], core.machine.epoch, deadlines[j].operation)
      ensures i < |core.machine.pending| && core.machine.pending[i].id == deadlines[j].operation
      ensures core.machine.pending[i].deadline == timers.entries[token].deadline
      ensures Armed(index - {deadlines[j].operation}, RemoveAt(core.machine.pending, i))
    {
      var pending := core.machine.pending;
      hide Sane, Timed, Publications, ActiveBag, Small, RemoveAt, DistinctIds;
      PendingBound(world);
      i :| 0 <= i < |pending| && pending[i].id == deadlines[j].operation;
      ArmedWithout(index, pending, i);
    }

    /** Some operation's timer is due. */
    ghost predicate TimerDue(now: Moment)
      reads this`index
    {
      exists id :: id in index && index[id] <= now
    }

    /** What the slot's own clockwork must act on while it is not closing. */
    ghost predicate DueDeadline(now: Moment)
      reads this`index, this`transportState, this`drainDeadline
    {
      || (transportState.Connecting? && connectDeadline <= now)
      || (drainDeadline.Some? && drainDeadline.value <= now) || TimerDue(now)
    }

    method HasDueDeadline(now: Moment) returns (due: bool)
      requires Owned()
      ensures due <==> DueDeadline(now)
    {
      hide Grounded, Timed, Armed, Roomy, Delivered, Streamed, TimerDue;
      var token := NextTimer(timers);
      NoneDue(token, now);
      due := (transportState.Connecting? && connectDeadline <= now) || (drainDeadline.Some? && drainDeadline.value <= now)
        || (token.Some? && timers.entries[token.value].deadline <= now);
    }

    /** The drain deadline passed before its last operation ended: the epoch closes, and not
        gracefully. */
    method ExpireDrain() returns (failure: Option<EngineError>)
      requires Owned() && Staged() && drainDeadline.Some?
      modifies this`core, this`world, this`timers, this`deadlines, this`index, this`outcomes, this`recoveryOutcomes,
        this`lifecycle, this`recoveryEvents, this`events, this`eventSequence,
        this`drainDeadline, this`transportState, this`closeRequest
      ensures Kept(failure) && Calmer(old(Watch()), Watch()) && Onward(old(Watch()), Watch())
      ensures closeRequest == Some(CoreClose(CloseReason.Requested, Immediate))
    {
      hide Owned, Fewer;
      drainDeadline := None;
      failure := CloseFor(CloseReason.Requested);
    }

    /** One timer that fired. */
    method ElapseDeadline(timer: Timer, now: Moment, ghost i: nat) returns (failure: Option<EngineError>)
      requires Fired(i, now) && timer.operation == core.machine.pending[i].id && timer.epoch == core.machine.epoch
      modifies this`core, this`world, this`timers, this`deadlines, this`index, this`outcomes, this`recoveryOutcomes,
        this`lifecycle, this`recoveryEvents, this`events, this`eventSequence,
        this`drainDeadline, this`transportState, this`closeRequest
      ensures Kept(failure) && Calmer(old(Watch()), Watch()) && Onward(old(Watch()), Watch())
      ensures core == Core.Apply(old(core), DeadlineReached(timer.epoch, timer.operation, now)).0
    {
      hide Indexed, Roomy, Delivered, Streamed, Sane, Armed, CloseReasonOf, Core.Apply, SlotStep, Shut, Fewer, RemoveAt;
      FiredSteady(i, now);
      DeadlineSlot(index, world, i, now);
      var (c, r) := Core.Apply(core, DeadlineReached(timer.epoch, timer.operation, now));
      failure := Settle(c, Observed(world, c, r), r.value.effects, true, None);
    }

    lemma FiredSteady(i: nat, now: Moment)
      requires Fired(i, now)
      ensures Steady(world) && world.core == core
    {
      hide Sane, Indexed, Roomy, Delivered, Streamed, Armed;
    }

    /** The earliest deadline strikes: a drain's before a connect's before an operation's. */
    ghost predicate Struck(before: CoreState, connecting: bool, drain: Option<Moment>, now: Moment)
      reads this`core, this`closeRequest
    {
      || (drain.Some? && drain.value <= now && NoneBefore(before.machine.pending, drain.value)
          && (connecting ==> drain.value <= connectDeadline)
          && closeRequest == Some(CoreClose(CloseReason.Requested, Immediate)))
      || (connecting && connectDeadline <= now && NoneBefore(before.machine.pending, connectDeadline)
          && (drain.Some? ==> connectDeadline < drain.value) && closeRequest == Some(CoreClose(ConnectTimedOut, Immediate)))
      || exists i: nat :: StruckRecord(before, connecting, drain, now, i)
    }

    static ghost predicate NoneBefore(pending: seq<Record>, deadline: Moment) {
      forall k :: 0 <= k < |pending| ==> deadline <= pending[k].deadline
    }

    ghost predicate StruckRecord(before: CoreState, connecting: bool, drain: Option<Moment>, now: Moment, i: nat)
      reads this`core
    {
      var pending := before.machine.pending;
      && EarliestRecord(pending, i) && pending[i].deadline <= now
      && (drain.Some? ==> pending[i].deadline < drain.value) && (connecting ==> pending[i].deadline < connectDeadline)
      && core == Core.Apply(before, DeadlineReached(before.machine.epoch, pending[i].id, now)).0
    }

    /** The drain deadline, the connect deadline or an operation's, whichever passed first. */
    method DriveDeadlineOnce(now: Moment) returns (progressed: bool, failure: Option<EngineError>)
      requires Owned() && Staged() && closeRequest.None?
      modifies this`core, this`world, this`timers, this`deadlines, this`index, this`outcomes, this`recoveryOutcomes,
        this`lifecycle, this`recoveryEvents, this`events, this`eventSequence,
        this`drainDeadline, this`transportState, this`closeRequest
      ensures Kept(failure) && Calmer(old(Watch()), Watch()) && Onward(old(Watch()), Watch())
      ensures !progressed ==> failure.None? && closeRequest.None? && !DueDeadline(now)
      ensures progressed ==> Struck(old(core), old(transportState.Connecting?), old(drainDeadline), now)
    {
      hide Grounded, Timed, Armed, Roomy, Delivered, Streamed, TimerDue, Fewer, Fired, Core.Apply, Publications, ClosingTrace;
      var token := NextTimer(timers);
      NoneDue(token, now);
      EarliestPending(token);
      CalmerAlready(Watch());
      var operation := if token.Some? then Some(timers.entries[token.value].deadline) else None;
      if drainDeadline.Some? && drainDeadline.value <= now && (operation.None? || drainDeadline.value <= operation.value)
        && (!transportState.Connecting? || drainDeadline.value <= connectDeadline)
      {
        failure := ExpireDrain();
        return true, failure;
      }
      if transportState.Connecting? && connectDeadline <= now && (operation.None? || connectDeadline <= operation.value) {
        failure := CloseFor(ConnectTimedOut);
        return true, failure;
      }
      ghost var before := Watch();
      var timer, i := PopDue(now);
      if timer.None? {
        return false, None;
      }
      ghost var popped := Watch();
      failure := ElapseDeadline(timer.value, now, i);
      CalmerTwice(before, popped, Watch());
      assert StruckRecord(old(core), old(transportState.Connecting?), old(drainDeadline), now, i);
      return true, failure;
    }

    /** Fires what is due, earliest first, within `budget`. Unless the budget ran out or the epoch
        began to close, nothing due is left. */
    method DriveDeadlines(now: Moment, budget: nat) returns (work: nat, failure: Option<EngineError>)
      requires Owned() && Staged() && closeRequest.None?
      modifies this`core, this`world, this`timers, this`deadlines, this`index, this`outcomes, this`recoveryOutcomes,
        this`lifecycle, this`recoveryEvents, this`events, this`eventSequence,
        this`drainDeadline, this`transportState, this`closeRequest
      ensures Kept(failure) && Calmer(old(Watch()), Watch()) && Onward(old(Watch()), Watch()) && work <= budget
      ensures failure.None? && closeRequest.None? && work < budget ==> !DueDeadline(now)
    {
      hide Owned, Staged, DueDeadline, Calmer;
      work, failure := 0, None;
      ghost var start := Watch();
      CalmerAlready(start);
      while work < budget
        invariant work <= budget && Owned() && Staged() && closeRequest.None? && failure.None?
        invariant Calmer(start, Watch()) && Onward(start, Watch())
      {
        ghost var before := Watch();
        var progressed;
        progressed, failure := DriveDeadlineOnce(now);
        CalmerTwice(start, before, Watch());
        if failure.Some? || !progressed {
          return;
        }
        work := work + 1;
        if closeRequest.Some? {
          return;
        }
      }
    }

    // ------------------------------------------------------------- what is runnable

    /** All that decides what is runnable. */
    ghost function Sight(transport: SlotTransport): Seen
      reads this, transport
    {
      Seen(core, index, decoderPending, transportState, drainDeadline, closeRequest, events, world,
        transport.open, transport.canEstablish, transport.canRead, transport.canWrite, transport.hasWork,
          transport.shutdownComplete)
    }

    predicate RunnableIo(transport: SlotTransport)
      reads this`core, this`transportState, this`decoderPending, transport
    {
      || decoderPending
      || (transportState.Connecting? && (transport.open || transport.canEstablish))
      || (transportState.Open? && transport.hasWork)
      || (transportState.Open? && transport.canRead)
      || (transportState.Open? && transport.open && core.writer.frames != []
          && (core.writer.frames[0].wire == 0 || transport.canWrite))
    }

    // ------------------------------------------------------------- transport pressure

    /** A transport keeps one retained limit, within the slot's, and stays within it. */
    method CapturePressure(transport: SlotTransport) returns (failure: Option<EngineError>)
      modifies this`transportLimit
      ensures failure.None? <==> (transport.retained <= transport.retainedLimit <= limits.transportBytes
        && (old(transportLimit).None? || old(transportLimit).value == transport.retainedLimit))
      ensures failure.None? ==> transportLimit == Some(transport.retainedLimit)
      ensures failure.Some? ==> failure.value.Explained()
    {
      if transport.retainedLimit > limits.transportBytes
        || (transportLimit.Some? && transportLimit.value != transport.retainedLimit) {
        return Some(Invariant(TransportLimitContract));
      }
      transportLimit := Some(transport.retainedLimit);
      if transport.retained > transport.retainedLimit {
        return Some(Invariant(TransportRetainedCapacity));
      }
      return None;
    }

    /** One operation and a chunk of bytes each way is all a transport may report, and it must report
        something. */
    method ValidateProgress(progress: WorkReport) returns (failure: Option<EngineError>)
      ensures failure.None? ==> progress.operations == 1 && progress.Fits(limits.chunkBytes)
      ensures failure.None? <==> progress.Fits(limits.chunkBytes) && !progress.IsIdle()
      ensures failure.Some? ==> failure.value.Explained()
    {
      if !progress.Fits(limits.chunkBytes) {
        return Some(Invariant(TransportProgressContract));
      }
      if progress.IsIdle() {
        return Some(Invariant(TransportNoProgress));
      }
      return None;
    }

    // ------------------------------------------------------------- closing on behalf of I/O

    /** A live epoch is given up for this reason, at once. */
    ghost predicate GaveUp(live: bool, reason: CloseReason)
      reads this`closeRequest
    {
      live ==> closeRequest == Some(CoreClose(reason, Immediate))
    }

    /** Gives the epoch up for a reason of its own. */
    method GiveUp(reason: CloseReason) returns (failure: Option<EngineError>)
      requires Owned() && Staged() && !reason.Drained?
      modifies this`core, this`world, this`timers, this`deadlines, this`index, this`outcomes, this`recoveryOutcomes,
        this`lifecycle, this`recoveryEvents, this`events, this`eventSequence,
        this`drainDeadline, this`transportState, this`closeRequest
      ensures Kept(failure) && Calmer(old(Watch()), Watch()) && Onward(old(Watch()), Watch())
      ensures GaveUp(old(core.machine.phase.Live?), reason)
      ensures failure == Some(Invariant(LifecyclePublication)) ==> limits.lifecycleEvents <= |old(lifecycle)|
    {
      hide Owned, Fewer;
      failure := CloseFor(reason);
    }

    // ------------------------------------------------------------- establishment and transport work

    /** What one transport operation means to the slot; `room` is left for the edge it may publish. */
    ghost predicate Worked(
      before: CoreState, connecting: bool, room: bool, transport: SlotTransport, failure: Option<EngineError>)
      reads this`core, this`closeRequest, this`transportState, transport
    {
      match transport.lastWork
      case Failure(_) => GaveUp(before.machine.phase.Live?, if connecting then ConnectFailed else TransportLost)
      case Success(progress) =>
        var kept := progress.Fits(limits.chunkBytes) && !progress.IsIdle();
        && (failure.None? <==> kept && (connecting && transport.open ==> room))
        && core == before && (connecting && kept ==> (transportState.Open? <==> transport.open))
    }

    /** There is something for the transport to do. */
    ghost predicate WillWork(transport: SlotTransport)
      reads this`transportState, transport
    {
      if transportState.Connecting? then !transport.open && transport.canEstablish else transport.hasWork
    }

    method DriveTransportOnce(transport: SlotTransport, remaining: nat)
      returns (progressed: Option<nat>, failure: Option<EngineError>)
      requires Owned() && Staged() && closeRequest.None? && Attached(transport) && 0 < remaining
      modifies this, transport
      ensures Kept(failure) && Calmer(old(Watch()), Watch()) && Attached(transport) && failed == old(failed)
      ensures Onward(old(Watch()), Watch()) && transport.honest == old(transport.honest)
      ensures failure.None? && progressed.Some? ==> progressed.value == 1
      ensures failure.None? && progressed.None? ==>
        Sight(transport) == old(Sight(transport)) && Quiet(PreferTransport, Sight(transport))
      ensures old(transportState.Connecting? && transport.open) ==>
        failure == Some(Invariant(TransportOpenedBeforeEstablishment))
      ensures old(WillWork(transport)) ==>
        Worked(old(core), old(transportState.Connecting?), old(|lifecycle|) < limits.lifecycleEvents, transport, failure)
      ensures old(WillWork(transport)) ==> transport.Answers(old(transport.calls))
      ensures old(WillWork(transport)) ==> transport.lastWork == transport.script(old(transport.calls)).work
    {
      hide SlotTransport.Answers, Owned, Staged, Calmer;
      progressed, failure := None, None;
      CalmerAlready(Watch());
      if transportState.Connecting? && transport.open {
        return None, Some(Invariant(TransportOpenedBeforeEstablishment));
      }
      if transportState.Connecting? {
        if !transport.canEstablish {
          return;
        }
        var r := transport.DriveEstablishment();
        if r.Failure? {
          failure := GiveUp(ConnectFailed);
          return Some(1), failure;
        }
        failure := ValidateProgress(r.value);
        if failure.Some? {
          return;
        }
        if transport.open {
          failure := OpenTransport();
        }
        return Some(r.value.operations), failure;
      }
      if !transport.hasWork {
        return;
      }
      var r := transport.DriveTransport();
      if r.Failure? {
        failure := GiveUp(TransportLost);
        return Some(1), failure;
      }
      failure := ValidateProgress(r.value);
      return Some(r.value.operations), failure;
    }

    /** Establishment completed: the first edge of the lifecycle. */
    method OpenTransport() returns (failure: Option<EngineError>)
      requires Owned() && Staged() && transportState.Connecting?
      modifies this`lifecycle, this`recoveryEvents, this`events, this`eventSequence, this`transportState
      ensures Kept(failure) && Calmer(old(Watch()), Watch()) && Onward(old(Watch()), Watch())
      ensures transportState.Open? && events == [TransportOpened(1)] && drainDeadline == old(drainDeadline)
      ensures failure.Some? <==> |old(lifecycle)| >= limits.lifecycleEvents
    {
      hide Grounded, Indexed, Armed, Roomy, Delivered, Fewer;
      CalmerAlready(Watch());
      transportState := TransportState.Open;
      failure := PublishEdge(TransportOpened(eventSequence + 1));
    }


    // ------------------------------------------------------------- decoding, reading, writing

    static function DecodeReason(fault: DecodeFault): CloseReason {
      match fault case OverCapacity => InboundRetainedCapacity case BadInput => CloseReason.MalformedReply
    }

    method CloseDecodeError(fault: DecodeFault) returns (failure: Option<EngineError>)
      requires Owned() && Staged()
      modifies this`core, this`world, this`timers, this`deadlines, this`index, this`outcomes, this`recoveryOutcomes,
        this`lifecycle, this`recoveryEvents, this`events, this`eventSequence,
        this`drainDeadline, this`transportState, this`closeRequest
      ensures Kept(failure) && Calmer(old(Watch()), Watch()) && Onward(old(Watch()), Watch())
      ensures GaveUp(old(core.machine.phase.Live?), DecodeReason(fault))
    {
      hide Owned, Staged, Calmer;
      match fault
      case OverCapacity => failure := GiveUp(InboundRetainedCapacity);
      case BadInput => failure := CloseMalformed();
    }

    /** What the decoder's last answer means to the slot. */
    ghost predicate Decoded(before: CoreState)
      reads this`core, this`closeRequest, this`decoderPending, decoder
    {
      var live := before.machine.phase.Live?;
      match decoder.lastFrame
      case Failure(fault) => !decoderPending && GaveUp(live, DecodeReason(fault))
      case Success(None) =>
        !decoderPending
        && (if decoder.retained >= limits.decoderBytes then GaveUp(live, InboundRetainedCapacity) else core == before)
      case Success(Some(frame)) =>
        if frame.retained > limits.replyBytes then GaveUp(live, InboundRetainedCapacity)
        else if decoder.lastKey.None? then GaveUp(live, CloseReason.MalformedReply)
        else core == Core.ApplyReply(before, InboundReply(before.machine.epoch, decoder.lastKey.value, frame)).0
    }

    method AcceptReply(reply: InboundReply) returns (failure: Option<EngineError>)
      requires Owned() && Staged() && reply.payload.retained <= limits.replyBytes
      modifies this`core, this`world, this`timers, this`deadlines, this`index, this`outcomes, this`recoveryOutcomes,
        this`lifecycle, this`recoveryEvents, this`events, this`eventSequence,
        this`drainDeadline, this`transportState, this`closeRequest
      ensures Kept(failure) && Calmer(old(Watch()), Watch()) && Onward(old(Watch()), Watch())
      ensures core == Core.ApplyReply(old(core), reply).0
    {
      hide Indexed, Roomy, Delivered, Streamed, Sane, Armed, CloseReasonOf, Core.ApplyReply, SlotStep, Shut, Fewer;
      GroundedSteady();
      ReplySlot(index, world, reply);
      var (c, r) := Core.ApplyReply(core, reply);
      failure := Settle(c, Observed(world, c, r), r.value.effects, false, Some(reply.payload));
    }

    /** One decoded frame, or none: an oversized reply never reaches the core, and a full decoder that
        holds no frame closes the epoch. */
    method DriveDecoderOnce() returns (failure: Option<EngineError>)
      requires Owned() && Staged()
      modifies this, decoder
      ensures Kept(failure) && Calmer(old(Watch()), Watch()) && Onward(old(Watch()), Watch()) && failed == old(failed)
      ensures Decoded(old(core))
    {
      hide Owned, Staged, Calmer, Core.ApplyReply;
      failure := None;
      CalmerAlready(Watch());
      var r := decoder.NextFrame();
      if r.Failure? {
        decoderPending := false;
        failure := CloseDecodeError(r.error);
        return;
      }
      if r.value.None? {
        decoderPending := false;
        if decoder.retained >= limits.decoderBytes {
          failure := GiveUp(InboundRetainedCapacity);
        }
        return;
      }
      var frame := r.value.value;
      if frame.retained > limits.replyBytes {
        failure := GiveUp(InboundRetainedCapacity);
        return;
      }
      var key := decoder.ReplyKey(frame);
      if key.None? {
        failure := CloseMalformed();
        return;
      }
      failure := AcceptReply(InboundReply(core.machine.epoch, key.value, frame));
    }

    static function ReadLength(limits: SlotLimits, retained: nat): nat {
      var remaining := if retained >= limits.decoderBytes then 0 else limits.decoderBytes - retained;
      if remaining < limits.chunkBytes then remaining else limits.chunkBytes
    }

    /** What one read means to the slot. */
    ghost predicate ReadTo(before: CoreState, retained: nat, transport: SlotTransport, failure: Option<EngineError>)
      reads this`core, this`closeRequest, this`decoderPending, decoder, transport
    {
      var live, length := before.machine.phase.Live?, ReadLength(limits, retained);
      if length == 0 then GaveUp(live, InboundRetainedCapacity) else ReadAs(before, transport.lastIo, length, failure)
    }

    /** What one answer to a read of `length` bytes means to the slot. */
    ghost predicate ReadAs(before: CoreState, r: IoResult, length: nat, failure: Option<EngineError>)
      reads this`core, this`closeRequest, this`decoderPending, decoder
    {
      var live := before.machine.phase.Live?;
      match r
      case WouldBlock => failure.None? && core == before
      case IoFailed => GaveUp(live, TransportLost)
      case MovedBytes(count) =>
        if count == 0 then GaveUp(live, TransportLost)
        else if count > length then failure == Some(Invariant(TransportReadContract))
        else if decoder.lastFault.Some? then GaveUp(live, DecodeReason(decoder.lastFault.value))
        else failure.None? && decoderPending && core == before
    }

    method DriveReadOnce(transport: SlotTransport) returns (progressed: Option<nat>, failure: Option<EngineError>)
      requires Owned() && Staged() && Attached(transport)
      modifies this, transport, decoder
      ensures Kept(failure) && Calmer(old(Watch()), Watch()) && Attached(transport) && failed == old(failed)
      ensures failure.None? && progressed.Some? ==> progressed.value == 1
      ensures failure.None? && progressed.None? ==>
        Sight(transport) == old(Sight(transport)) && Quiet(PreferRead, Sight(transport))
      ensures progressed.Some? ==> ReadTo(old(core), old(decoder.retained), transport, failure)
    {
      hide SlotTransport.Answers, Owned, Staged, Calmer;
      progressed, failure := None, None;
      CalmerAlready(Watch());
      if !transport.canRead {
        return;
      }
      progressed := Some(1);
      var length := ReadLength(limits, decoder.retained);
      if length == 0 {
        failure := GiveUp(InboundRetainedCapacity);
        return;
      }
      var r := transport.Read(length);
      if r.WouldBlock? {
        transport.ClearReadiness();
        return;
      }
      failure := ActOnRead(r, length);
    }

    /** What bytes, or none, mean to the slot. */
    method ActOnRead(r: IoResult, length: nat) returns (failure: Option<EngineError>)
      requires Owned() && Staged() && !r.WouldBlock?
      modifies this`core, this`world, this`timers, this`deadlines, this`index, this`outcomes, this`recoveryOutcomes,
        this`lifecycle, this`recoveryEvents, this`events, this`eventSequence,
        this`drainDeadline, this`transportState, this`closeRequest, this`decoderPending, decoder
      ensures Kept(failure) && Calmer(old(Watch()), Watch()) && Onward(old(Watch()), Watch())
      ensures ReadAs(old(core), r, length, failure)
    {
      hide Owned, Staged, Calmer;
      failure := None;
      CalmerAlready(Watch());
      if r.IoFailed? || r.count == 0 {
        failure := GiveUp(TransportLost);
      } else if r.count > length {
        failure := Some(Invariant(TransportReadContract));
      } else {
        var fault := decoder.Feed(r.count);
        if fault.Some? {
          failure := CloseDecodeError(fault.value);
        } else {
          decoderPending := true;
        }
      }
    }

    /** Reports `count` bytes of the front frame: the wire grows by exactly those, or, when the frame
        has fewer left, the owner is broken and the wire stays. */
    method ReportWritten(count: nat) returns (failure: Option<EngineError>)
      requires Owned() && Staged() && core.writer.frames != []
      modifies this`core, this`world, this`timers, this`deadlines, this`index, this`outcomes, this`recoveryOutcomes,
        this`lifecycle, this`recoveryEvents, this`events, this`eventSequence,
        this`drainDeadline, this`transportState, this`closeRequest
      ensures Kept(failure) && Calmer(old(Watch()), Watch())
      ensures Reported(old(core.writer), count, old(world.wire), world.wire, failure)
      ensures core == AdvanceWrite(old(core), old(core.machine.epoch), old(core.writer.frames[0].effect), count).0
      ensures failure == Some(Invariant(LifecyclePublication)) ==> limits.lifecycleEvents <= |old(lifecycle)|
    {
      hide Indexed, Roomy, Delivered, Streamed, Sane, Armed, CloseReasonOf, AdvanceWrite, SlotStep, Shut, Fewer,
        StepAdvance, OverReportedTo, TakenBytes;
      GroundedSteady();
      CalmerAlready(Watch());
      AdvanceSlot(index, world, count);
      var effect := core.writer.frames[0].effect;
      AdvanceWire(world, effect, count);
      var (c, r) := AdvanceWrite(core, core.machine.epoch, effect, count);
      ghost var after := StepAdvance(world, core.machine.epoch, effect, count);
      if r.Failure? {
        TakeBroken(c, after);
        return Some(CoreFailed(r.error));
      }
      failure := Settle(c, after, r.value.effects, true, None);
    }

    static ghost predicate Reported(
      writer: WriterState, count: nat, wire: seq<Byte>, after: seq<Byte>, failure: Option<EngineError>) {
      writer.frames != [] &&
      var q := writer.frames[0];
      if q.written + count <= q.wire then
        after == wire + TakenBytes(writer, count) && (failure.None? || failure == Some(Invariant(LifecyclePublication)))
      else
        q.written <= q.wire && after == wire
        && failure == Some(CoreFailed(Broken(WriteProgressContract(count, q.wire - q.written))))
    }

    static lemma AdvanceWire(w: World, effect: EffectId, count: nat)
      requires w.core.writer.frames != []
      ensures var r := AdvanceWrite(w.core, w.core.machine.epoch, effect, count).1;
        StepAdvance(w, w.core.machine.epoch, effect,
          count).wire == if r.Success? then w.wire + TakenBytes(w.core.writer, count) else w.wire
    {
      hide AdvanceWrite, TakenBytes, Credit;
    }

    /** A broken owner still owns what it owned. */
    method TakeBroken(next: CoreState, ghost after: World)
      requires Owned() && OverReportedTo(world, after) && next == after.core
      modifies this`core, this`world
      ensures Owned() && core == next && world == after
    {
      hide Sane, Timed, Armed, Publications, ActiveBag, Small;
      core, world := next, after;
    }

    /** What one write means to the slot. */
    ghost predicate WroteTo(before: CoreState, transport: SlotTransport)
      requires before.writer.frames != []
      reads this`core, this`closeRequest, transport
    {
      var q, live := before.writer.frames[0], before.machine.phase.Live?;
      if q.written == q.wire then core == AdvanceWrite(before, before.machine.epoch, q.effect, 0).0
      else
        match transport.lastIo
        case WouldBlock => core == before
        case IoFailed => GaveUp(live, TransportLost)
        case MovedBytes(count) =>
          if count == 0 then GaveUp(live, TransportLost)
          else core == AdvanceWrite(before, before.machine.epoch, q.effect, count).0
    }

    /** A claim the frame can hold is counted, bytes never offered included; a larger one breaks the owner
        and moves nothing. */
    ghost predicate Claimed(before: CoreState, wire: seq<Byte>, transport: SlotTransport, failure: Option<EngineError>)
      requires before.writer.frames != []
      reads this`world, transport
    {
      var q := before.writer.frames[0];
      q.written != q.wire && transport.lastIo.MovedBytes? && transport.lastIo.count != 0 ==>
        Reported(before.writer, transport.lastIo.count, wire, world.wire, failure)
    }

    /** The transport claimed bytes it was not offered, though no more than the frame had left. */
    ghost predicate Overclaimed(before: CoreState, transport: SlotTransport)
      requires before.writer.frames != []
      reads transport
    {
      var q := before.writer.frames[0];
      q.written != q.wire && transport.lastIo.MovedBytes? && q.written + transport.lastIo.count <= q.wire
      && limits.chunkBytes < transport.lastIo.count
    }

    method DriveWriteOnce(transport: SlotTransport) returns (progressed: Option<nat>, failure: Option<EngineError>)
      requires Owned() && Staged() && Attached(transport)
      modifies this, transport
      ensures Kept(failure) && Calmer(old(Watch()), Watch()) && Attached(transport) && failed == old(failed)
      ensures failure.None? && progressed.Some? ==> progressed.value == 1
      ensures failure.None? && progressed.None? ==>
        Sight(transport) == old(Sight(transport)) && Quiet(PreferWrite, Sight(transport))
      ensures progressed.Some? ==> old(core.writer.frames) != [] && WroteTo(old(core), transport)
      ensures progressed.Some? ==> Claimed(old(core), old(world.wire), transport, failure)
      ensures old(transport.open && transport.canWrite && core.writer.frames != []) ==> progressed.Some?
      ensures failure.Some? ==> progressed.Some?
      ensures transport.honest <==> old(transport.honest) && !(progressed.Some? && Overclaimed(old(core), transport))
      ensures progressed.Some? && old(core.writer.frames[0].written != core.writer.frames[0].wire) ==>
        transport.lastIo == transport.script(old(transport.calls)).io
      ensures failure == Some(Invariant(LifecyclePublication)) ==> limits.lifecycleEvents <= |old(lifecycle)|
    {
      hide SlotTransport.Answers, Owned, Staged, Fewer, Core.FrontWrite, AdvanceWrite, Offered, Steady, TakenBytes;
      progressed, failure := None, None;
      CalmerAlready(Watch());
      if !transport.open {
        return;
      }
      StagedSteady();
      FrontSlot(world, limits.chunkBytes);
      var front := Core.FrontWrite(core, limits.chunkBytes).1.value;
      if front.None? {
        return;
      }
      OfferedSlice(world, limits.chunkBytes, front.value);
      ghost var w := world;
      if front.value.bytes == [] {
        failure := ReportWritten(0);
        return Some(1), failure;
      }
      if !transport.canWrite {
        return;
      }
      failure := OfferFront(transport, front.value);
      return Some(1), failure;
    }

    /** Offers the transport the next part of the front frame and acts on its answer. */
    method OfferFront(transport: SlotTransport, slice: WriteSlice) returns (failure: Option<EngineError>)
      requires Owned() && Staged() && Attached(transport) && core.writer.frames != []
      requires Offered(world, limits.chunkBytes, slice) && slice.bytes != []
      modifies this, transport
      ensures Kept(failure) && Calmer(old(Watch()), Watch()) && Attached(transport) && failed == old(failed)
      ensures WroteTo(old(core), transport) && Claimed(old(core), old(world.wire), transport, failure)
      ensures transport.honest <==> old(transport.honest) && !Overclaimed(old(core), transport)
      ensures transport.lastIo == transport.script(old(transport.calls)).io
      ensures failure == Some(Invariant(LifecyclePublication)) ==> limits.lifecycleEvents <= |old(lifecycle)|
    {
      hide SlotTransport.Answers, Owned, Staged, Calmer, AdvanceWrite, Offered, TakenBytes, Taken, Attached, Credited,
        Claims, Reported, Overclaimed, GaveUp, Steady;
      StagedSteady();
      OfferedSlice(world, limits.chunkBytes, slice);
      ghost var before, writer := Watch(), core.writer;
      var r := AskToWrite(transport, slice);
      failure := ActOnWrite(r);
      CreditedAttached(transport, before, writer, r);
    }

    /** What an answer to a write means to the core. */
    method ActOnWrite(r: IoResult) returns (failure: Option<EngineError>)
      requires Owned() && Staged() && core.writer.frames != []
      modifies this`core, this`world, this`timers, this`deadlines, this`index, this`outcomes, this`recoveryOutcomes,
        this`lifecycle, this`recoveryEvents, this`events, this`eventSequence,
        this`drainDeadline, this`transportState, this`closeRequest
      ensures Kept(failure) && Calmer(old(Watch()), Watch())
      ensures world.wire == old(world.wire) + Claims(old(core.writer), r)
      ensures r.WouldBlock? ==> core == old(core)
      ensures r.IoFailed? || (r.MovedBytes? && r.count == 0) ==> GaveUp(old(core.machine.phase.Live?), TransportLost)
      ensures r.MovedBytes? && r.count != 0 ==>
        core == AdvanceWrite(old(core), old(core.machine.epoch), old(core.writer.frames[0].effect), r.count).0
      ensures r.MovedBytes? && r.count != 0 ==>
        Reported(old(core.writer), r.count, old(world.wire), world.wire, failure)
      ensures failure == Some(Invariant(LifecyclePublication)) ==> limits.lifecycleEvents <= |old(lifecycle)|
    {
      hide Owned, Staged, Fewer, AdvanceWrite, Claims, Reported, GaveUp;
      failure := None;
      CalmerAlready(Watch());
      ClaimsCounted(core.writer, r);
      if r.IoFailed? || (r.MovedBytes? && r.count == 0) {
        failure := GiveUp(TransportLost);
      } else if r.MovedBytes? {
        failure := ReportWritten(r.count);
      }
    }

    /** What the core will count for an answer. */
    static function Claims(writer: WriterState, r: IoResult): seq<Byte>
      requires writer.frames != []
    {
      if r.MovedBytes? && writer.frames[0].written + r.count <= writer.frames[0].wire then TakenBytes(writer, r.count) else []
    }

    /** What is counted is what is reported; no bytes moved count for nothing. */
    static lemma ClaimsCounted(writer: WriterState, r: IoResult)
      requires writer.frames != []
      ensures !r.MovedBytes? || r.count == 0 ==> Claims(writer, r) == []
      ensures forall wire, after, failure ::
        r.MovedBytes? && Reported(writer, r.count, wire, after, failure) ==> after == wire + Claims(writer, r)
    {
    }

    /** The transport's bytes match what the core is about to count. */
    static ghost predicate Credited(before: Watching, writer: WriterState, r: IoResult, transport: SlotTransport)
      requires writer.frames != []
      reads transport
    {
      var wire := before.wire + Claims(writer, r);
      && (if transport.honest then transport.accepted == wire else |transport.accepted| < |wire|)
      && transport.shutdowns <= 1 && (before.mayBegin ==> transport.shutdowns == 0)
    }

    lemma CreditedAttached(transport: SlotTransport, before: Watching, writer: WriterState, r: IoResult)
      requires writer.frames != [] && Credited(before, writer, r, transport) && Calmer(before, Watch())
      requires world.wire == before.wire + Claims(writer, r)
      ensures Attached(transport)
    {
      hide Claims, Fewer;
    }

    method AskToWrite(transport: SlotTransport, slice: WriteSlice) returns (r: IoResult)
      requires world.core == core && core.writer.frames != [] && Offered(world, limits.chunkBytes, slice)
      requires 0 < limits.chunkBytes && Attached(transport)
      modifies transport
      ensures r == transport.lastIo == transport.script(old(transport.calls)).io
      ensures Credited(Watch(), core.writer, r, transport)
      ensures transport.honest <==> old(transport.honest) && !Overclaimed(core, transport)
    {
      hide SlotTransport.Answers, TakenBytes, Taken, Offered;
      OfferedSlice(world, limits.chunkBytes, slice);
      r := transport.Write(slice.bytes, core.writer.frames[0].wire - core.writer.frames[0].written);
      OfferedTaken(world, limits.chunkBytes, slice, r);
      if r.WouldBlock? {
        transport.ClearReadiness();
      }
    }

    /** An empty slice is offered only for an empty frame's sake, or a complete one's. */
    static lemma OfferedSlice(w: World, maximum: nat, slice: WriteSlice)
      requires w.core.writer.frames != [] && Offered(w, maximum, slice) && 0 < maximum
      ensures var q := w.core.writer.frames[0];
        q.written <= q.wire && |slice.bytes| <= q.wire - q.written && (slice.bytes == [] <==> q.written == q.wire)
      ensures slice.bytes == [] ==> TakenBytes(w.core.writer, 0) == []
      ensures slice.bytes != [] ==> w.core.writer.frames[0].wire != 0
    {
    }

    /** What a transport can have taken of the slice is what the core counts, unless it claimed more than
        the slice. */
    static lemma OfferedTaken(w: World, maximum: nat, slice: WriteSlice, r: IoResult)
      requires w.core.writer.frames != [] && Offered(w, maximum, slice)
      ensures var left := w.core.writer.frames[0].wire - w.core.writer.frames[0].written;
        !r.MovedBytes? || r.count == 0 || left < r.count ==> Taken(slice.bytes, left, r) == []
      ensures var left := w.core.writer.frames[0].wire - w.core.writer.frames[0].written;
        r.MovedBytes? ==>
        && (|slice.bytes| < r.count <= left <==> maximum < r.count <= left)
        && (r.count <= |slice.bytes| ==> TakenBytes(w.core.writer, r.count) == Taken(slice.bytes, left, r))
        && (|slice.bytes| < r.count <= left ==> |Taken(slice.bytes, left, r)| < |TakenBytes(w.core.writer, r.count)|)
    {
      var q := w.core.writer.frames[0];
      if r.MovedBytes? && r.count <= |slice.bytes| {
        assert q.frame.bytes[q.written..][..r.count] == q.frame.bytes[q.written..q.written + r.count];
      }
    }

    // ------------------------------------------------------------- one ready component

    method DriveComponent(current: IoPreference, transport: SlotTransport, remaining: nat)
      returns (progressed: Option<nat>, failure: Option<EngineError>)
      requires Owned() && Staged() && closeRequest.None? && Attached(transport) && 0 < remaining
      modifies this, transport, decoder
      ensures Kept(failure) && Calmer(old(Watch()), Watch()) && Attached(transport) && failed == old(failed)
      ensures failure.None? && progressed.Some? ==> progressed.value == 1
      ensures failure.None? && progressed.None? ==>
        Sight(transport) == old(Sight(transport)) && Quiet(current, Sight(transport))
    {
      hide SlotTransport.Answers, Owned, Staged, Fewer;
      progressed, failure := None, None;
      CalmerAlready(Watch());
      match current
      case PreferTransport => progressed, failure := DriveTransportOnce(transport, remaining);
      case PreferDecode =>
        if decoderPending {
          failure := DriveDecoderOnce();
          progressed := Some(1);
        }
      case PreferRead =>
        if transportState.Open? {
          progressed, failure := DriveReadOnce(transport);
        }
      case PreferWrite =>
        if transportState.Open? {
          progressed, failure := DriveWriteOnce(transport);
        }
    }

    /** One component, and then the transport's pressure. */
    method DriveAndMeasure(current: IoPreference, transport: SlotTransport, remaining: nat)
      returns (progressed: Option<nat>, failure: Option<EngineError>)
      requires Owned() && Staged() && closeRequest.None? && Attached(transport) && 0 < remaining
      modifies this, transport, decoder
      ensures Kept(failure) && Calmer(old(Watch()), Watch()) && Attached(transport) && failed == old(failed)
      ensures failure.None? && progressed.Some? ==> progressed.value == 1
      ensures failure.None? && progressed.None? ==>
        Sight(transport) == old(Sight(transport)) && Quiet(current, Sight(transport))
    {
      hide Owned, Staged, Calmer, Quiet, Attached;
      progressed, failure := DriveComponent(current, transport, remaining);
      var pressure := CapturePressure(transport);
      if failure.None? {
        failure := pressure;
      }
    }

    /** Tries each component once, starting where the last turn left off. Finding nothing means that
        nothing is runnable and nothing changed. */
    method DriveReadyOnce(transport: SlotTransport, remaining: nat)
      returns (progressed: Option<nat>, failure: Option<EngineError>)
      requires Owned() && Staged() && closeRequest.None? && Attached(transport) && 0 < remaining
      modifies this, transport, decoder
      ensures Kept(failure) && Calmer(old(Watch()), Watch()) && Attached(transport) && failed == old(failed)
      ensures failure.None? && progressed.Some? ==> progressed.value == 1
      ensures failure.None? && progressed.None? ==> Sight(transport) == old(Sight(transport)) && !RunnableIo(transport)
    {
      hide SlotTransport.Answers, Owned, Staged, Calmer, RunnableIo, Quiet, Attached;
      CalmerAlready(Watch());
      ghost var start := ioPreference;
      var preference := ioPreference;
      for i := 0 to 4
        invariant Owned() && Staged() && Attached(transport) && failed == old(failed)
        invariant Sight(transport) == old(Sight(transport)) && preference == Ahead(start, i)
        invariant forall k {:trigger Ahead(start, k)} :: 0 <= k < i ==> Quiet(Ahead(start, k), Sight(transport))
      {
        var current := preference;
        preference := preference.Next();
        AheadNext(start, i);
        progressed, failure := DriveAndMeasure(current, transport, remaining);
        if failure.Some? {
          return;
        }
        if progressed.Some? {
          ioPreference := preference;
          return;
        }
      }
      AllQuiet(start, transport);
      return None, None;
    }

    lemma AllQuiet(start: IoPreference, transport: SlotTransport)
      requires forall k {:trigger Ahead(start, k)} :: 0 <= k < 4 ==> Quiet(Ahead(start, k), Sight(transport))
      ensures !RunnableIo(transport)
    {
      assert Quiet(Ahead(start, 0), Sight(transport)) && Quiet(Ahead(start, 1), Sight(transport));
      assert Quiet(Ahead(start, 2), Sight(transport)) && Quiet(Ahead(start, 3), Sight(transport));
    }

    // ------------------------------------------------------------- I/O under a budget

    predicate IoPending(transport: SlotTransport?)
      reads this`core, this`transportState, this`decoderPending, transport
    {
      decoderPending || (transport != null && RunnableIo(transport))
    }

    method DriveIo(transport: SlotTransport?, budget: nat)
      returns (work: nat, saturated: bool, failure: Option<EngineError>)
      requires Owned() && Staged() && closeRequest.None? && Attached(transport)
      modifies this, transport, decoder
      ensures Kept(failure) && Calmer(old(Watch()), Watch()) && Attached(transport) && failed == old(failed)
      ensures work <= budget
      ensures saturated ==> work == budget
      ensures failure.None? && closeRequest.None? && !saturated ==> !IoPending(transport)
    {
      hide Owned, Staged, Calmer;
      work, saturated, failure := 0, false, None;
      ghost var start := Watch();
      CalmerAlready(start);
      while work < budget && closeRequest.None?
        invariant work <= budget && Owned() && Staged() && failure.None? && Attached(transport) && failed == old(failed)
        invariant Calmer(start, Watch())
        decreases budget - work
      {
        ghost var before := Watch();
        var progressed: Option<nat> := None;
        if transport != null {
          progressed, failure := DriveReadyOnce(transport, budget - work);
        } else if decoderPending {
          failure := DriveDecoderOnce();
          progressed := Some(1);
          if failure.None? {
            ioPreference := PreferRead;
          }
        } else {
          CalmerAlready(before);
        }
        CalmerTwice(start, before, Watch());
        if failure.Some? {
          return;
        }
        if progressed.None? {
          break;
        }
        work := work + progressed.value;
      }
      saturated := work == budget && closeRequest.None? && IoPending(transport);
    }

    // ------------------------------------------------------------- graceful shutdown

    predicate RunnableShutdown(now: Moment, transport: SlotTransport)
      reads this`closeRequest, transport
    {
      closeRequest.Some? && closeRequest.value.CoreClose? &&
      match closeRequest.value.shutdown
      case Pending(_) => true
      case Started(deadline) => deadline <= now || transport.shutdownComplete || transport.hasWork
      case _ => false
    }

    /** The directive after one step of its shutdown: same reason, same deadline if any is left. */
    static ghost predicate Shortened(before: Option<CloseDirective>, after: Option<CloseDirective>) {
      && (before.Some? <==> after.Some?)
      && (before.Some? && before.value.CoreClose? ==> after.value.CoreClose? && after.value.reason == before.value.reason)
      && (before.Some? && after.value.ShutdownDeadline().Some? ==>
            after.value.ShutdownDeadline() == before.value.ShutdownDeadline())
      && (before.Some? && before.value.Abort? ==> after.value.Abort?)
    }

    /** Begins or continues a graceful shutdown by one transport operation, and ends it at once when
        its deadline passed. */
    method DriveShutdownOnce(now: Moment, transport: SlotTransport, remaining: nat)
      returns (progressed: Option<nat>, failure: Option<EngineError>)
      requires Owned() && Staged() && Attached(transport) && 0 < remaining
      modifies this`closeRequest, this`transportLimit, transport
      ensures Kept(failure) && Attached(transport) && Shortened(old(closeRequest), closeRequest)
      ensures failure.None? && progressed.Some? ==> progressed.value == 1
      ensures failure.None? && progressed.None? ==> !RunnableShutdown(now, transport)
      ensures old(UnderWay(closeRequest)) && old(closeRequest).value.shutdown.deadline <= now ==>
        closeRequest == Some(CoreClose(old(closeRequest).value.reason,
          Immediate)) && transport.shutdowns == old(transport.shutdowns)
    {
      hide SlotTransport.Answers, Owned;
      progressed, failure := None, None;
      if !UnderWay(closeRequest) {
        return;
      }
      var reason, shutdown := closeRequest.value.reason, closeRequest.value.shutdown;
      var deadline := shutdown.deadline;
      if deadline <= now {
        closeRequest := Some(CoreClose(reason, Immediate));
        return Some(1), None;
      }
      if shutdown.Pending? {
        var r := transport.BeginShutdown();
        progressed, failure := ProgressShutdown(reason, deadline, transport, r);
        return;
      }
      if transport.shutdownComplete {
        closeRequest := Some(CoreClose(reason, ShutdownState.Complete));
        return;
      }
      if !transport.hasWork {
        return;
      }
      var r := transport.DriveTransport();
      progressed, failure := ProgressShutdown(reason, deadline, transport, r);
    }

    /** A failing transport, or one that breaks its contract, is closed without further grace. */
    method ProgressShutdown(
      reason: CloseReason, deadline: Moment, transport: SlotTransport, r: Result<WorkReport, TransportFault>)
      returns (progressed: Option<nat>, failure: Option<EngineError>)
      requires Owned() && Staged() && UnderWay(closeRequest)
      requires closeRequest.value.reason == reason && closeRequest.value.shutdown.deadline == deadline
      modifies this`closeRequest, this`transportLimit
      ensures Kept(failure) && closeRequest.Some? && closeRequest.value.CoreClose?
      ensures closeRequest.value.reason == reason
      ensures closeRequest.value.shutdown in {Immediate, ShutdownState.Complete, Started(deadline)}
      ensures failure.None? ==> progressed == Some(1)
      ensures failure.None? && r.Success? ==>
        closeRequest.value.shutdown == if transport.shutdownComplete then ShutdownState.Complete else Started(deadline)
    {
      hide Owned;
      progressed := Some(1);
      failure := CapturePressure(transport);
      if r.Success? && failure.None? {
        failure := ValidateProgress(r.value);
      }
      if r.Failure? || failure.Some? {
        closeRequest := Some(CoreClose(reason, Immediate));
        return;
      }
      closeRequest := Some(CoreClose(reason,
        if transport.shutdownComplete then ShutdownState.Complete else Started(deadline)));
      progressed := Some(r.value.operations);
    }

    method DriveCloseQuantum(now: Moment, transport: SlotTransport?, budget: nat, done: nat)
      returns (work: nat, saturated: bool, failure: Option<EngineError>)
      requires Owned() && Staged() && Attached(transport) && done <= budget
      modifies this`closeRequest, this`transportLimit, transport
      ensures Kept(failure) && Attached(transport) && Shortened(old(closeRequest), closeRequest) && work <= budget
      ensures saturated ==> work == budget
      ensures failure.None? && !saturated && transport != null ==> !RunnableShutdown(now, transport)
    {
      hide Owned, Staged;
      work, saturated, failure := done, false, None;
      while work < budget
        invariant work <= budget && Owned() && Staged() && Attached(transport) && failure.None?
        invariant Shortened(old(closeRequest), closeRequest)
      {
        if transport == null {
          break;
        }
        var progressed;
        progressed, failure := DriveShutdownOnce(now, transport, budget - work);
        if failure.Some? {
          return;
        }
        if progressed.None? {
          break;
        }
        work := work + progressed.value;
      }
      saturated := work == budget && transport != null && RunnableShutdown(now, transport);
    }

    // ------------------------------------------------------------- what the host and the peer get

    /** Every accepted operation's outcome reached the host's stream once, or is still to come. */
    lemma PublishedOnce()
      requires Valid()
      ensures PublishedIds(taken + outcomes) + ActiveBag(core.machine.pending) + RecoveredBag(world.recovered)
           == multiset(CommitIds(world.commits))
      ensures forall c: nat :: c < |world.commits| ==> multiset(CommitIds(world.commits))[world.commits[c].id] == 1
    {
      hide Indexed, Armed, Roomy, Streamed, Publications, OutcomeIds, PublishedIds, ActiveBag, RecoveredBag,
        Structured, Accounted, Phased, Busy;
      PublicationIds(world.trace);
      var g :| Inv(world, g);
      forall c: nat | c < |world.commits| ensures multiset(CommitIds(world.commits))[world.commits[c].id] == 1 {
        DistinctBag(CommitIds(world.commits), world.commits[c].id);
        assert CommitIds(world.commits)[c] in multiset(CommitIds(world.commits));
      }
    }

    /** What a transport took is complete accepted frames in commit order, then a part of the next, if and
        only if it never claimed more than it was offered but no more than the frame had left. */
    lemma TransportTookFrames(transport: SlotTransport)
      requires Valid() && Attached(transport)
      ensures transport.honest <==> transport.accepted == Flatten(world.commits)
      ensures exists cut: nat :: CutFrames(world, cut)
    {
      hide Indexed, Armed, Roomy, Delivered, Streamed, Flatten, CutFrames, Structured, Identified, Accounted,
        Conserved, Phased, Busy;
      var g :| Inv(world, g);
      FramesCut(world, g, if world.core.poisoned.Some? then Loose else Tight);
    }

    // ------------------------------------------------------------- one quantum

    /** The connect or drain deadline, or a pending operation's, has passed. */
    ghost predicate Overdue(now: Moment)
      reads this`core, this`transportState, this`drainDeadline
    {
      || (transportState.Connecting? && connectDeadline <= now) || (drainDeadline.Some? && drainDeadline.value <= now)
      || exists i :: 0 <= i < |core.machine.pending| && core.machine.pending[i].deadline <= now
    }

    lemma OverdueIsDue(now: Moment)
      requires Owned()
      ensures Overdue(now) <==> DueDeadline(now)
    {
      hide Grounded, Indexed, Roomy, Delivered, Streamed;
      if TimerDue(now) {
        var id :| id in index && index[id] <= now;
        var i :| 0 <= i < |core.machine.pending| && core.machine.pending[i].id == id;
      }
    }

    /** What one successful quantum leaves: never more work than allowed, and, unless it says so,
        nothing left to do. */
    ghost predicate Exhausted(now: Moment, transport: SlotTransport?, work: nat, saturated: bool)
      reads this, transport
    {
      && work <= limits.ioOperations && (saturated ==> work == limits.ioOperations)
      && (!saturated && closeRequest.None? ==> !IoPending(transport) && !DueDeadline(now))
      && (!saturated && closeRequest.Some? && transport != null ==> !RunnableShutdown(now, transport))
    }

    method DriveQuantumInner(now: Moment, transport: SlotTransport?)
      returns (work: nat, saturated: bool, failure: Option<EngineError>)
      requires Owned() && Staged() && Attached(transport)
      modifies this, transport, decoder
      ensures Kept(failure) && Attached(transport) && failed == old(failed)
      ensures failure.None? ==> Exhausted(now, transport, work, saturated)
    {
      hide Owned, Staged, RunnableIo;
      work, saturated, failure := 0, false, None;
      if transport != null {
        failure := CapturePressure(transport);
        if failure.Some? {
          return;
        }
      }
      var budget := limits.ioOperations;
      if closeRequest.None? {
        work, failure := DriveDeadlines(now, budget);
        if failure.Some? {
          return;
        }
      }
      if closeRequest.Some? {
        work, saturated, failure := DriveCloseQuantum(now, transport, budget, work);
        return;
      }
      if work == budget {
        var due := HasDueDeadline(now);
        saturated := due || IoPending(transport);
        return;
      }
      ghost var before := Watch();
      var moved;
      moved, saturated, failure := DriveIo(transport, budget - work);
      StillNotDue(before, now);
      work := work + moved;
      if failure.Some? {
        return;
      }
      if closeRequest.Some? {
        work, saturated, failure := DriveCloseQuantum(now, transport, budget, work);
      }
    }

    /** Nothing becomes due by doing I/O. */
    lemma StillNotDue(before: Watching, now: Moment)
      requires Calmer(before, Watch())
      requires !(before.connecting && connectDeadline <= now) && !(before.drain.Some? && before.drain.value <= now)
      requires forall id :: id in before.index ==> before.index[id] > now
      ensures !DueDeadline(now)
    {
    }

    /** One bounded turn of the slot, over any transport. */
    method DriveQuantum(now: Moment, transport: SlotTransport?) returns (r: Result<SlotProgress, EngineError>)
      requires Valid() && Attached(transport)
      modifies this, transport, decoder
      ensures Valid() && Attached(transport)
      ensures r.Failure? ==> failed && r.error.Explained()
      ensures r.Success? ==>
        !failed && r.value.work <= limits.ioOperations && (r.value.saturated ==> r.value.work == limits.ioOperations)
      ensures r.Success? && !r.value.saturated && closeRequest.None? ==> !IoPending(transport) && !Overdue(now)
      ensures r.Success? && !r.value.saturated && closeRequest.Some? && transport != null ==>
        !RunnableShutdown(now, transport)
    {
      hide Owned, Staged, Overdue, DueDeadline, RunnableIo;
      if failed {
        return Failure(OwnerFailed);
      }
      var work, saturated, failure := DriveQuantumInner(now, transport);
      if failure.Some? {
        Latch(failure.value);
        return Failure(failure.value);
      }
      OverdueIsDue(now);
      return Success(SlotProgress(work, saturated));
    }
  }

  datatype SlotProgress = SlotProgress(work: nat, saturated: bool)

  function Ahead(start: IoPreference, n: nat): IoPreference {
    if n == 0 then start else Ahead(start, n - 1).Next()
  }

  /** Nothing is runnable for this preference. */
  ghost predicate Quiet(preference: IoPreference, seen: Seen) {
    match preference
    case PreferTransport =>
      !(seen.state.Connecting? && (seen.open || seen.canEstablish)) && !(seen.state.Open? && seen.hasWork)
    case PreferDecode => !seen.decoderPending
    case PreferRead => !(seen.state.Open? && seen.canRead)
    case PreferWrite =>
      !(seen.state.Open? && seen.open && seen.core.writer.frames != []
        && (seen.core.writer.frames[0].wire == 0 || seen.canWrite))
  }

  lemma AheadNext(start: IoPreference, n: nat)
    ensures Ahead(start, n + 1) == Ahead(start, n).Next()
  {
  }

  datatype Seen = Seen(
    core: CoreState, index: DeadlineIndex, decoderPending: bool, state: TransportState, drain: Option<Moment>,
    directive: Option<CloseDirective>, events: seq<ConnectionEvent>, world: World,
    open: bool, canEstablish: bool, canRead: bool, canWrite: bool, hasWork: bool, shutdownComplete: bool)

  datatype Watching = Watching(index: DeadlineIndex, connecting: bool, drain: Option<Moment>, mayBegin: bool, wire: seq<Byte>)

  /** No new deadline, no way back to an earlier stage. */
  ghost predicate Calmer(a: Watching, b: Watching) {
    && Fewer(b.index, a.index) && (b.connecting ==> a.connecting)
    && (b.drain.Some? ==> b.drain == a.drain) && (b.mayBegin ==> a.mayBegin)
  }

  lemma CalmerAlready(a: Watching)
    ensures Calmer(a, a) && Onward(a, a)
  {
  }

  lemma CalmerTwice(a: Watching, b: Watching, c: Watching)
    requires Calmer(a, b) && Calmer(b, c)
    ensures Calmer(a, c)
  {
  }

  /** No bytes moved, and no second chance to shut down. */
  ghost predicate Onward(a: Watching, b: Watching) {
    b.wire == a.wire && (b.mayBegin ==> a.mayBegin)
  }

  ghost predicate Fewer(a: DeadlineIndex, b: DeadlineIndex) {
    forall id :: id in a ==> id in b && a[id] == b[id]
  }

  lemma {:induction false} PlainFewer(index: DeadlineIndex, effects: seq<Effect>, payload: Option<Frame>, epoch: Epoch)
    requires Plain(effects, payload, epoch)
    ensures Fewer(IndexAfter(index, effects), index)
  {
    if effects != [] {
      PlainFewer(index, effects[..|effects| - 1], payload, epoch);
    }
  }

  function PublicationOf(e: Effect): seq<EngineOutcome> {
    if e.PublishOutcome? then [EngineOutcome(e.epoch, e.operation, e.outcome)] else []
  }

  lemma PrefixNone(index: DeadlineIndex, effects: seq<Effect>)
    ensures IndexAfter(index, effects[..0]) == index && Publications(effects[..0]) == []
    ensures CloseReasonOf(effects[..0]).None?
  {
  }

  lemma PrefixNext(index: DeadlineIndex, effects: seq<Effect>, i: nat)
    requires i < |effects|
    ensures IndexAfter(index, effects[..i + 1]) == IndexOne(IndexAfter(index, effects[..i]), effects[i])
    ensures Publications(effects[..i + 1]) == Publications(effects[..i]) + PublicationOf(effects[i])
    ensures CloseReasonOf(effects[..i + 1])
      == if effects[i].CloseEpoch? then Some(effects[i].reason) else CloseReasonOf(effects[..i])
    ensures effects[i].PublishOutcome? ==> |Publications(effects[..i])| < |OutcomeIds(effects)|
    ensures i == 0 ==> IndexAfter(index, effects[..i]) == index
  {
    var prefix := effects[..i + 1];
    assert prefix[..i] == effects[..i] && prefix[i] == effects[i];
    PublicationsConcat(prefix, effects[i + 1..]);
    assert effects == prefix + effects[i + 1..];
    PublicationsCount(effects);
  }

  lemma Shrinks(index: DeadlineIndex, id: OperationId)
    ensures |index - {id}| <= |index|
  {
    SubsetSize((index - {id}).Keys, index.Keys);
  }

  /** What a slot may rely on about one effect of a transition. */
  lemma OneInterpretable(
    effects: seq<Effect>, payload: Option<Frame>, epoch: Epoch, bytes: nat, unit: bool, i: nat, scheduling: bool)
    requires i < |effects| && (unit ==> payload.None?) && (payload.Some? ==> payload.value.retained <= bytes)
    requires Plain(effects, payload, epoch) || (scheduling && |effects| == 1 && effects[0].ScheduleDeadline?)
    ensures !effects[i].DiscardWrite? && !(unit && IsReply(effects[i]))
    ensures effects[i].PublishOutcome? ==>
      EngineOutcome(effects[i].epoch, effects[i].operation, effects[i].outcome).Retained() <= bytes
    ensures effects[i].ScheduleDeadline? ==> scheduling && i == 0
  {
  }
}
