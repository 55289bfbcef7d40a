/** Each core step as its host sees it: it succeeds, and its effects carry the deadline index, the
    publications and the closure from the old state to the new one. */
module SlotSteps {
  import opened Primitives
  import opened KeySet
  import opened Ledger
  import opened Operations
  import opened Writer
  import opened Recovery
  import opened Core
  import opened World
  import opened Moves
  import opened Closure
  import opened Settlement
  import opened Agreement
  import opened Admission
  import opened Rescue
  import opened Reconciling
  import opened Steps
  import opened Reports
  import opened Runs
  import opened SlotEffects
  import Progress
  import Machine

  /** A working owner. */
  ghost predicate Steady(w: World) {
    Sane(w) && w.core.poisoned.None?
  }

  /** A history that explains a working owner, with what it says at once. */
  lemma SteadyGhosts(w: World) returns (g: Ghosts)
    requires Steady(w)
    ensures Inv(w, g) && w.core.poisoned.None?
    ensures |w.core.writer.frames| <= |w.core.machine.pending| && DistinctIds(w.core.machine.pending)
    ensures w.core.machine.phase.Live? <==> !w.core.machine.gate.GateClosed?
    ensures w.core.machine.pending != [] ==> w.core.machine.phase.Live?
  {
    g :| Inv(w, g);
    hide Sound, Busy, DistinctIds;
    SoundCounts(w, g);
    SoundDistinct(w, g, Tight);
    SoundGate(w, g);
  }

  /** What a host relies on when it interprets one transition. */
  ghost predicate SlotStep(index: DeadlineIndex, w: World, after: World, effects: seq<Effect>, payload: Option<Frame>) {
    && Steady(after) && Kin(w, after) && after.trace == w.trace + effects
    && Armed(IndexAfter(index, effects), after.core.machine.pending) && Plain(effects, payload, w.core.machine.epoch)
    && |OutcomeIds(effects)| + |ActiveBag(after.core.machine.pending)| == |ActiveBag(w.core.machine.pending)|
  }

  lemma Packaged(
    index: DeadlineIndex, w: World, g: Ghosts, after: World, h: Ghosts, effects: seq<Effect>, payload: Option<Frame>)
    requires Inv(w, g) && Inv(after, h) && w.core.poisoned.None? && Kin(w, after)
    requires Tracks(index, w, after, payload) && after.trace == w.trace + effects
    ensures SlotStep(index, w, after, effects, payload)
  {
    hide Sound, Busy, Conserved, IndexAfter, Armed, Plain, OutcomeIds, ActiveBag;
    assert after.trace[|w.trace|..] == effects;
    InvConserved(w, g);
    InvConserved(after, h);
    PublicationsBalance(w, after);
  }

  lemma InvConserved(w: World, g: Ghosts)
    requires Inv(w, g)
    ensures Conserved(w)
  {
  }

  /** A shared shape: the step computes a world the invariant holds in. */
  lemma InputPackaged(index: DeadlineIndex, w: World, g: Ghosts, input: Input)
    requires Inv(w, g) && w.core.poisoned.None? && |w.core.writer.frames| <= |w.core.machine.pending|
    requires Tracks(index, w, InputWorld(w, input), None)
    ensures var (c, r) := Core.Apply(w.core, input);
      r.Success? && Observed(w, c, r) == InputWorld(w, input)
      && SlotStep(index, w, InputWorld(w, input), r.value.effects, None)
  {
    hide Sound, Busy, InputWorld, Core.Apply, Tracks, Kin, SlotStep;
    InputComputes(w, g, input);
    InputKin(w, input);
    var h := InputKeeps(w, g, input);
    var (c, r) := Core.Apply(w.core, input);
    Packaged(index, w, g, InputWorld(w, input), h, r.value.effects, None);
  }

  /** The closure a step announces, in terms of its returned effects. */
  ghost predicate Shut(w: World, after: World, effects: seq<Effect>, drained: bool) {
    var reason := CloseReasonOf(effects);
    var m, m' := w.core.machine, after.core.machine;
    if reason.None? then m'.phase == m.phase && m'.gate == m.gate
    else m.phase.Live? && m'.phase.Closing? && (reason.value.Drained? ==> drained)
  }

  lemma ShutsShut(w: World, after: World, effects: seq<Effect>, drained: bool)
    requires Shuts(w, after, drained) && after.trace == w.trace + effects
    ensures Shut(w, after, effects, drained)
  {
    assert after.trace[|w.trace|..] == effects;
  }

  lemma CancelSlot(index: DeadlineIndex, w: World, id: OperationId)
    requires Steady(w) && Armed(index, w.core.machine.pending)
    ensures var input := Cancel(w.core.machine.epoch, id);
      var (c, r) := Core.Apply(w.core, input);
      r.Success? && SlotStep(index, w, Observed(w, c, r), r.value.effects, None)
      && Shut(w, Observed(w, c, r), r.value.effects, w.core.machine.gate.Draining?)
  {
    hide Sound, Busy, CancelledWorld, Core.Apply, Tracks, Shuts, Shut, SlotStep, Armed, DistinctIds;
    var input := Cancel(w.core.machine.epoch, id);
    var g := SteadyGhosts(w);
    CancelTracks(index, w, g, id);
    CancelShuts(w, g, id);
    InputPackaged(index, w, g, input);
    var (c, r) := Core.Apply(w.core, input);
    StepTrace(index, w, InputWorld(w, input), r.value.effects, None);
    ShutsShut(w, InputWorld(w, input), r.value.effects, w.core.machine.gate.Draining?);
  }

  lemma StepTrace(index: DeadlineIndex, w: World, after: World, effects: seq<Effect>, payload: Option<Frame>)
    requires SlotStep(index, w, after, effects, payload)
    ensures after.trace == w.trace + effects
  {
  }

  lemma ElapsedInput(w: World, id: OperationId, now: Moment)
    requires |w.core.writer.frames| <= |w.core.machine.pending|
    ensures InputWorld(w, DeadlineReached(w.core.machine.epoch, id, now)) == ElapsedWorld(w, id, now)
  {
    hide ElapsedWorld;
  }

  /** The fired timer belongs to a pending record, and no other entry was touched. */
  lemma DeadlineSlot(index: DeadlineIndex, w: World, i: nat, now: Moment)
    requires Steady(w) && i < |w.core.machine.pending| && Armed(index, RemoveAt(w.core.machine.pending, i))
    requires w.core.machine.pending[i].deadline <= now
    ensures var input := DeadlineReached(w.core.machine.epoch, w.core.machine.pending[i].id, now);
      var (c, r) := Core.Apply(w.core, input);
      r.Success? && SlotStep(index, w, Observed(w, c, r), r.value.effects, None)
      && Shut(w, Observed(w, c, r), r.value.effects, w.core.machine.gate.Draining?)
  {
    var id := w.core.machine.pending[i].id;
    var input := DeadlineReached(w.core.machine.epoch, id, now);
    hide Sound, Busy, ElapsedWorld, InputWorld, Core.Apply, Tracks, Shuts, Shut, SlotStep, Armed, DistinctIds, IndexOf;
    var g := SteadyGhosts(w);
    ElapsedInput(w, id, now);
    FoundAt(w.core.machine.pending, i);
    DeadlineTracks(index, w, g, i, now);
    DeadlineShuts(w, g, id, now);
    InputPackaged(index, w, g, input);
    var (c, r) := Core.Apply(w.core, input);
    StepTrace(index, w, InputWorld(w, input), r.value.effects, None);
    ShutsShut(w, InputWorld(w, input), r.value.effects, w.core.machine.gate.Draining?);
  }

  lemma RestSlot(index: DeadlineIndex, w: World, input: Input)
    requires Steady(w) && Armed(index, w.core.machine.pending) && !input.Cancel? && !input.DeadlineReached?
    ensures var (c, r) := Core.Apply(w.core, input);
      r.Success? && SlotStep(index, w, Observed(w, c, r), r.value.effects, None) && Observed(w, c, r) == RestWorld(w, input)
  {
    hide Sound, Busy, RestWorld, Core.Apply, Tracks, SlotStep, Armed, DistinctIds;
    var g := SteadyGhosts(w);
    RestTracks(index, w, g, input);
    InputPackaged(index, w, g, input);
  }

  /** Asking for closure closes a live epoch for that reason and changes nothing otherwise. */
  lemma CloseSlot(index: DeadlineIndex, w: World, reason: CloseReason)
    requires Steady(w) && Armed(index, w.core.machine.pending)
    ensures var (c, r) := Core.Apply(w.core, CloseRequested(w.core.machine.epoch, reason));
      r.Success? && SlotStep(index, w, Observed(w, c, r), r.value.effects, None)
      && (if w.core.machine.phase.Live?
          then Observed(w, c, r).core.machine.phase.Closing? && CloseReasonOf(r.value.effects) == Some(reason)
            && r.value.effects == ClosingTrace(w.core.machine, reason, None)
          else Observed(w, c, r) == w && r.value.effects == [])
  {
    var input := CloseRequested(w.core.machine.epoch, reason);
    hide Steady, Core.Apply, SlotStep, Armed, ClosedWorld, ClosingTrace;
    RestSlot(index, w, input);
    var (c, r) := Core.Apply(w.core, input);
    StepTrace(index, w, RestWorld(w, input), r.value.effects, None);
    ClosedSays(w, reason, r.value.effects);
  }

  lemma ClosedSays(w: World, reason: CloseReason, effects: seq<Effect>)
    ensures w.core.machine.phase.Live? && ClosedWorld(w, reason, None).trace == w.trace + effects ==>
      ClosedWorld(w, reason, None).core.machine.phase.Closing? && CloseReasonOf(effects) == Some(reason)
      && effects == ClosingTrace(w.core.machine, reason, None)
    ensures w.trace == w.trace + effects ==> effects == []
  {
    if w.core.machine.phase.Live? && ClosedWorld(w, reason, None).trace == w.trace + effects {
      ClosedTrace(w, reason, None);
      ClosingReason(w.core.machine, reason, None);
      assert (w.trace + effects)[|w.trace|..] == effects;
      assert (w.trace + ClosingTrace(w.core.machine, reason,
        None))[|w.trace|..] == ClosingTrace(w.core.machine, reason, None);
      hide Visible, Machine.CloseEffects, Machine.ReleaseEach, CloseReasonOf, ClosingTrace;
    }
    if w.trace == w.trace + effects {
      assert |effects| == 0;
    }
  }

  lemma MalformedSlot(index: DeadlineIndex, w: World)
    requires Steady(w) && Armed(index, w.core.machine.pending)
    ensures var (c, r) := Core.Apply(w.core, ReplyMalformed(w.core.machine.epoch));
      r.Success? && SlotStep(index, w, Observed(w, c, r), r.value.effects, None)
      && (if w.core.machine.phase.Live? then Observed(w, c,
        r).core.machine.phase.Closing? && CloseReasonOf(r.value.effects) == Some(CloseReason.MalformedReply)
          else Observed(w, c, r) == w && r.value.effects == [])
  {
    var input := ReplyMalformed(w.core.machine.epoch);
    hide Steady, Core.Apply, SlotStep, Armed, ClosedWorld;
    RestSlot(index, w, input);
    var (c, r) := Core.Apply(w.core, input);
    StepTrace(index, w, RestWorld(w, input), r.value.effects, None);
    ClosedSays(w, CloseReason.MalformedReply, r.value.effects);
  }

  /** Opening, and confirming closure, return no effects. */
  lemma QuietSlot(index: DeadlineIndex, w: World, input: Input)
    requires Steady(w) && Armed(index, w.core.machine.pending) && (input.OpenAdmission? || input.EpochClosed?)
    requires input.epoch == w.core.machine.epoch
    ensures var (c, r) := Core.Apply(w.core, input);
      var after := Observed(w, c, r);
      var m, m' := w.core.machine, after.core.machine;
      r.Success? && SlotStep(index, w, after, r.value.effects, None) && r.value.effects == []
      && (input.OpenAdmission? ==> m' == m.(gate :=
            if m.phase.Live? && m.gate.SessionOnly? then AdmissionGate.Open else m.gate))
      && (input.EpochClosed? ==> m' == if m.phase.Closing? then m.(phase := Closed, gate := GateClosed) else m)
  {
    hide Steady, Core.Apply, SlotStep, Armed;
    RestSlot(index, w, input);
    var (c, r) := Core.Apply(w.core, input);
    StepTrace(index, w, RestWorld(w, input), r.value.effects, None);
    NoEffects(w.trace, r.value.effects);
  }

  lemma NoEffects(trace: seq<Effect>, effects: seq<Effect>)
    ensures trace == trace + effects ==> effects == []
  {
    if trace == trace + effects { assert |effects| == 0; }
  }

  /** Draining closes at once when nothing is pending. */
  ghost predicate Drains(w: World, after: World, t: Transition) {
    var m, m', reason := w.core.machine, after.core.machine, CloseReasonOf(t.effects);
    && (t.disposition.Applied? <==> m.phase.Live? && !m.gate.Draining? && !m.gate.GateClosed?)
    && (if !t.disposition.Applied? then after == w && t.effects == []
        else if m.pending == [] then reason == Some(CloseReason.Drained) && m'.phase.Closing?
        else reason.None? && m'.phase.Live? && m'.gate.Draining? && m'.pending == m.pending)
  }

  lemma DrainSlot(index: DeadlineIndex, w: World)
    requires Steady(w) && Armed(index, w.core.machine.pending)
    ensures var (c, r) := Core.Apply(w.core, BeginDrain(w.core.machine.epoch));
      r.Success? && SlotStep(index, w, Observed(w, c, r), r.value.effects, None) && Drains(w, Observed(w, c, r), r.value)
  {
    hide Inv, Core.Apply, SlotStep, Armed, AfterDrain, DistinctIds, CloseReasonOf, Machine.Apply;
    var input := BeginDrain(w.core.machine.epoch);
    var g := SteadyGhosts(w);
    AnswerKept(w, input);
    MachineAnswers(w.core.machine);
    RestSlot(index, w, input);
    var (c, r) := Core.Apply(w.core, input);
    StepTrace(index, w, RestWorld(w, input), r.value.effects, None);
    NoEffects(w.trace, r.value.effects);
    DrainingSays(w, r.value.effects);
  }

  /** Reconciliation changes neither the disposition nor the answer to a cancellation. */
  lemma AnswerKept(w: World, input: Input)
    requires Steady(w)
    ensures var t := Machine.Apply(w.core.machine, input).1;
      var r := Core.Apply(w.core, input).1;
      r.Success? ==> r.value.disposition == t.disposition && r.value.cancelled == t.cancelled
  {
    hide Sound, Busy, Core.Apply, Settle, PrepareInput, Machine.Apply, DistinctIds;
    var g := SteadyGhosts(w);
    InputAnswers(w, g, input);
    SettleAnswer(PrepareInput(w.core, input).0.(machine := Machine.Apply(w.core.machine, input).0),
      Machine.Apply(w.core.machine, input).1);
  }

  lemma SettleAnswer(c: CoreState, t: Transition)
    ensures var r := Settle(c, t).1; r.Success? ==>
      r.value.disposition == t.disposition && r.value.cancelled == t.cancelled
  {
    hide Reconcile;
  }

  /** What cancelling answers: removed unsent, observed no longer, or nothing to do. */
  function CancelAnswer(pending: seq<Record>, id: OperationId): CancelOutcome {
    var index := IndexOf(pending, id);
    if index.None? || pending[index.value].phase.Terminal? then CancelNoOp
    else if pending[index.value].delivery.NotSent? then CancelledNotSent
    else ObservationCancelled(PossiblySent)
  }

  lemma MachineAnswers(m: Machine.MachineState)
    ensures forall id :: Machine.Apply(m, Cancel(m.epoch, id)).1.cancelled == Some(CancelAnswer(m.pending, id))
    ensures Machine.Apply(m, OpenAdmission(m.epoch)).1.disposition.Applied? <==> m.phase.Live? && m.gate.SessionOnly?
    ensures Machine.Apply(m, BeginDrain(m.epoch)).1.disposition.Applied? <==>
      m.phase.Live? && !m.gate.Draining? && !m.gate.GateClosed?
    ensures forall reason :: Machine.Apply(m, CloseRequested(m.epoch, reason)).1.disposition.Applied? <==> m.phase.Live?
  {
    hide Machine.FinishDrain, Machine.Without, Machine.Close;
  }

  ghost predicate StillDraining(w: World, after: World) {
    && after.core.machine.phase.Live? && after.core.machine.gate.Draining?
    && after.core.machine.pending == w.core.machine.pending
  }

  lemma DrainingSays(w: World, effects: seq<Effect>)
    ensures var after := AfterDrain(Regated(w, Draining, Live));
      after.trace == w.trace + effects ==>
        if w.core.machine.pending == []
        then CloseReasonOf(effects) == Some(CloseReason.Drained)
          && (w.core.machine.phase.Live? ==> after.core.machine.phase.Closing?)
        else CloseReasonOf(effects).None? && StillDraining(w, after)
  {
    var draining := Regated(w, Draining, Live);
    if AfterDrain(draining).trace == w.trace + effects {
      if w.core.machine.pending == [] {
        ClosedSays(draining, CloseReason.Drained, effects);
        hide ClosedWorld, CloseReasonOf;
      } else {
        NoEffects(w.trace, effects);
      }
    }
  }

  lemma ReplySlot(index: DeadlineIndex, w: World, reply: InboundReply)
    requires Steady(w) && Armed(index, w.core.machine.pending)
    ensures var (c, r) := Core.ApplyReply(w.core, reply);
      r.Success? && SlotStep(index, w, Observed(w, c, r), r.value.effects, Some(reply.payload))
      && Shut(w, Observed(w, c, r), r.value.effects, w.core.machine.gate.Draining?)
  {
    hide Sound, Busy, RepliedWorld, Core.ApplyReply, Tracks, Shuts, Shut, SlotStep, Armed, Kin, DistinctIds;
    var g := SteadyGhosts(w);
    ReplyComputes(w, g, reply);
    ReplyTracks(index, w, g, reply);
    ReplyShuts(w, g, reply);
    ReplyKin(w, reply);
    var h := ReplyKeeps(w, g, reply);
    var (c, r) := Core.ApplyReply(w.core, reply);
    Packaged(index, w, g, RepliedWorld(w, reply), h, r.value.effects, Some(reply.payload));
    ShutsShut(w, RepliedWorld(w, reply), r.value.effects, w.core.machine.gate.Draining?);
  }

  // --------------------------------------------------------------- writing

  /** The slice is the next part of the front frame. */
  predicate Offered(w: World, maximum: nat, slice: WriteSlice)
    requires w.core.writer.frames != []
  {
    var q := w.core.writer.frames[0];
    && slice.epoch == w.core.machine.epoch && slice.effect == q.effect && q.written <= q.wire == |q.frame.bytes|
    && slice.bytes <= q.frame.bytes[q.written..]
    && |slice.bytes| == (if maximum < q.wire - q.written then maximum else q.wire - q.written)
  }

  /** The front of a working owner is always offered, and never more of it than is left. */
  lemma FrontSlot(w: World, maximum: nat)
    requires Steady(w) && 0 < maximum
    ensures var (c, r) := Core.FrontWrite(w.core, maximum);
      c == w.core && r.Success? && (r.value.Some? <==> w.core.writer.frames != [])
    ensures w.core.writer.frames != [] ==> Offered(w, maximum, Core.FrontWrite(w.core, maximum).1.value.value)
  {
    hide Sound, Busy, DistinctIds, Core.FrontWrite, Offered;
    var g := SteadyGhosts(w);
    NoneHeld(w, g);
    SoundEpoch(w, g);
    if w.core.writer.frames != [] { FrontWhole(w, g); }
    FrontHealthy(w, maximum);
  }

  lemma FrontHealthy(w: World, maximum: nat)
    requires w.core.poisoned.None? && !w.core.machine.ledger.poisoned && w.core.writer.epoch == w.core.machine.epoch
    requires 0 < maximum
    requires w.core.writer.frames != [] ==>
      w.core.writer.frames[0].written <= w.core.writer.frames[0].wire == |w.core.writer.frames[0].frame.bytes|
    ensures var (c, r) := Core.FrontWrite(w.core, maximum);
      c == w.core && r.Success? && (r.value.Some? <==> w.core.writer.frames != [])
    ensures w.core.writer.frames != [] ==> Offered(w, maximum, Core.FrontWrite(w.core, maximum).1.value.value)
  {
  }

  lemma FrontWhole(w: World, g: Ghosts)
    requires Sound(w, g, Tight) && w.core.writer.frames != []
    ensures var q := w.core.writer.frames[0]; q.written <= q.wire == |q.frame.bytes|
  {
    Progress.FrontFacts(w, g, Tight);
  }

  /** Reporting what a transport took of the front frame. */
  lemma AdvanceSlot(index: DeadlineIndex, w: World, count: nat)
    requires Steady(w) && Armed(index, w.core.machine.pending) && w.core.writer.frames != []
    ensures var q := w.core.writer.frames[0];
      var (c, r) := AdvanceWrite(w.core, w.core.machine.epoch, q.effect, count);
      var after := StepAdvance(w, w.core.machine.epoch, q.effect, count);
      after.core == c && q.written <= q.wire
      && (if q.written + count <= q.wire then
            r.Success? && SlotStep(index, w, after, r.value.effects, None)
            && Shut(w, after, r.value.effects, w.core.machine.gate.Draining?)
          else r == Failure(Broken(WriteProgressContract(count, q.wire - q.written))) && OverReportedTo(w, after))
  {
    hide Sound, Busy, AdvanceWrite, Tracks, Shuts, Shut, SlotStep, Armed, Kin, DistinctIds, ReportedWorld,
      OverReported, Fronted;
    var g := SteadyGhosts(w);
    FrontBounds(w, g);
    FrontReady(w, g);
    var q, k := w.core.writer.frames[0], WrittenCount(w.core.machine.pending, w.core.writer.frames);
    var after := StepAdvance(w, w.core.machine.epoch, q.effect, count);
    if q.written + count <= q.wire {
      ReportComputes(w, g, k, count);
      AdvanceTracks(index, w, g, k, count);
      AdvanceShuts(w, g, k, count);
      AdvanceKin(w, k, count);
      var h := ReportKeeps(w, g, k, count);
      var r := AdvanceWrite(w.core, w.core.machine.epoch, q.effect, count).1;
      Packaged(index, w, g, after, h, r.value.effects, None);
      ShutsShut(w, after, r.value.effects, w.core.machine.gate.Draining?);
    } else {
      ReportBreaks(w, k, count);
      BrokenTo(w, g, WriteProgressContract(count, q.wire - q.written));
    }
  }

  /** An over-report breaks the owner and changes nothing a host can see. */
  ghost predicate OverReportedTo(w: World, after: World) {
    && Sane(after) && after.core.poisoned.Some?
    && after.trace == w.trace && after.permits == w.permits
    && after.core.machine == w.core.machine
  }

  lemma BrokenTo(w: World, g: Ghosts, source: CoreInvariant)
    requires Inv(w, g) && w.core.poisoned.None? && w.core.writer.frames != []
    ensures OverReportedTo(w, OverReported(w, source))
  {
    hide Sound, Busy, Credit;
    OverKeeps(w, g, source);
    SoundHealthy(OverReported(w, source), g, Loose);
    assert Inv(OverReported(w, source), g);
  }

  // --------------------------------------------------------------- admission

  lemma ReserveSlot(w: World, now: Moment, options: Options)
    requires Steady(w)
    ensures w.core.machine.ledger.limits.Valid() && w.core.machine.ledger.limits.InSpace(w.core.machine.ledger.nextKey)
    ensures var (c, r) := Core.Reserve(w.core, now, options);
      var after := StepReserve(w, now, options);
      after.core == c && Steady(after) && after.trace == w.trace
      && after.core.machine.pending == w.core.machine.pending && after.core.machine.phase == w.core.machine.phase
      && after.core.machine.gate == w.core.machine.gate && after.core.machine.epoch == w.core.machine.epoch
      && after.core.machine.ledger.limits == w.core.machine.ledger.limits
      && after.permits == (if r.Success? then w.permits + [r.value] else w.permits)
      && (r.Failure? ==> after == w && r.error != OwnerPoisoned)
      && after.core.writer == w.core.writer && r == Machine.Reserve(w.core.machine, now, options).1
    ensures w.core.machine.ledger.operations == |w.permits| + |w.core.machine.pending|
  {
    var g := SteadyGhosts(w);
    InvHoldings(w, g);
    ReservePoisonless(w.core.machine, now, options);
    RefusedReserve(w.core.machine, now, options);
    ReserveFrame(w.core.machine, now, options);
    hide Sound, Busy, StepReserve, Machine.Reserve, DistinctIds;
    ReserveComputes(w, g, now, options);
    ReservedKeeps(w, g, now, options);
    ReserveAnswer(w, g, now, options);
    assert Reserved(w, now, options).core.writer == w.core.writer;
  }

  lemma InvHoldings(w: World, g: Ghosts)
    requires Inv(w, g)
    ensures w.core.machine.ledger.operations == |w.permits| + |w.core.machine.pending|
    ensures !w.core.machine.ledger.poisoned
    ensures w.core.machine.ledger.operations <= w.core.machine.ledger.limits.maxOperations
    ensures w.core.machine.ledger.limits.Valid() && w.core.machine.ledger.limits.InSpace(w.core.machine.ledger.nextKey)
  {
    Holdings(w, if w.core.poisoned.Some? then Loose else Tight);
    NotPoisoned(w);
    ClaimCount(PermitClaims(w.permits));
    hide Structured, Identified, Recorded, Balanced, TotalsOf;
  }

  lemma ReservePoisonless(m: Machine.MachineState, now: Moment, options: Options)
    requires m.ledger.limits.Valid() && m.ledger.limits.InSpace(m.ledger.nextKey) && !m.ledger.poisoned
    ensures var r := Machine.Reserve(m, now, options).1; r.Failure? ==> r.error != OwnerPoisoned
  {
  }

  lemma ReserveAnswer(w: World, g: Ghosts, now: Moment, options: Options)
    requires Inv(w, g) && w.core.poisoned.None?
    requires w.core.machine.ledger.limits.Valid() && w.core.machine.ledger.limits.InSpace(w.core.machine.ledger.nextKey)
    ensures Core.Reserve(w.core, now, options).1 == Machine.Reserve(w.core.machine, now, options).1
  {
    hide Sound, Busy, Machine.Reserve, Health, Violation;
    AuditPasses(w, g);
  }

  lemma CommitSlot(index: DeadlineIndex, w: World, i: nat, frame: Frame)
    requires Steady(w) && Armed(index, w.core.machine.pending) && i < |w.permits|
    ensures var (c, r) := Core.Commit(w.core, w.permits[i], frame);
      var after := StepCommit(w, i, frame);
      after.core == c
      && (if r.Failure? then after == w && r.error.Policy? && r.error.kind != Machine.CommitOwnerPoisoned
          else CommittedTo(index, w, i, frame, after, r.value.effects))
      && (r.Success? <==> Machine.CommitFailure(w.core.machine, w.permits[i], frame.retained).None?)
  {
    hide Sound, Busy, StepCommit, Committed, Armed, DistinctIds, Machine.CommitFailure;
    var g := SteadyGhosts(w);
    CommitComputes(w, g, i, frame);
    CommitAnswer(w, g, i, frame);
    if Machine.CommitFailure(w.core.machine, w.permits[i], frame.retained).None? {
      CommitLive(w, g, i, frame);
      CommitKeepsAll(w, g, i, frame);
      SoundHealthy(Committed(w, i, frame), CommitGhosts(w, g), Tight);
      assert Inv(Committed(w, i, frame), CommitGhosts(w, g));
      PermitFresh(w, g, i);
      CommitTracks(index, w, i, frame);
      CommitFacts(w, i, frame);
    }
  }

  /** The new record is scheduled, and one permit became one active operation. */
  ghost predicate CommittedTo(index: DeadlineIndex, w: World, i: nat, frame: Frame, after: World, effects: seq<Effect>)
    requires i < |w.permits|
  {
    && Steady(after) && after.trace == w.trace + effects && after.wire == w.wire
    && effects == [ScheduleDeadline(w.core.machine.epoch, w.permits[i].operation, w.permits[i].deadline)]
    && w.permits[i].operation !in index
    && Armed(IndexAfter(index, effects), after.core.machine.pending)
    && after.permits == RemoveAt(w.permits, i)
    && |ActiveBag(after.core.machine.pending)| == |ActiveBag(w.core.machine.pending)| + 1
    && after.core.machine.phase == w.core.machine.phase && after.core.machine.gate == w.core.machine.gate
    && after.core.machine.epoch == w.core.machine.epoch
    && after.core.machine.ledger.limits == w.core.machine.ledger.limits
    && after.core.machine.pending == w.core.machine.pending + [Machine.Accepted(w.permits[i], frame.retained)]
    && after.core.writer.frames == w.core.writer.frames + [Admission.Queued(w.permits[i], frame)]
  }

  lemma CommitAnswer(w: World, g: Ghosts, i: nat, frame: Frame)
    requires Inv(w, g) && w.core.poisoned.None? && i < |w.permits|
    ensures var kind := Machine.CommitFailure(w.core.machine, w.permits[i], frame.retained);
      var (c, r) := Core.Commit(w.core, w.permits[i], frame);
      StepCommit(w, i, frame).core == c
      && (kind.Some? ==> r == Failure(CommitRefusal.Policy(kind.value)) && kind.value != Machine.CommitOwnerPoisoned)
      && (kind.None? ==> r.Success?)
      && (kind.None? ==>
          r.value.effects == [ScheduleDeadline(w.core.machine.epoch, w.permits[i].operation, w.permits[i].deadline)])
  {
    hide Identified, Structured, Accounted, Recorded, Busy, Violation, CommitPermit, HoldsOperation, HoldsEffect;
    AuditPasses(w, g);
    if Machine.CommitFailure(w.core.machine, w.permits[i], frame.retained).None? {
      WriterNeverRefuses(w, g, i, frame);
    }
  }

  lemma CommitLive(w: World, g: Ghosts, i: nat, frame: Frame)
    requires Inv(w, g) && i < |w.permits| && Machine.CommitFailure(w.core.machine, w.permits[i], frame.retained).None?
    ensures w.core.machine.phase.Live? && frame.retained <= w.permits[i].reservation.writeRetained
  {
    hide Identified, Structured, Accounted, Recorded;
  }

  lemma PermitFresh(w: World, g: Ghosts, i: nat)
    requires Inv(w, g) && i < |w.permits|
    ensures forall j :: 0 <= j < |w.core.machine.pending| ==> w.core.machine.pending[j].id != w.permits[i].operation
  {
    var pending := w.core.machine.pending;
    forall j | 0 <= j < |pending| ensures pending[j].id != w.permits[i].operation {
      assert Same(w.commits[g.order[j]], pending[j]);
    }
  }

  lemma CommitFacts(w: World, i: nat, frame: Frame)
    requires i < |w.permits|
    ensures var after := Committed(w, i, frame);
      after.permits == RemoveAt(w.permits, i) && after.wire == w.wire && after.core.machine.phase == w.core.machine.phase
      && after.core.machine.gate == w.core.machine.gate && after.core.machine.epoch == w.core.machine.epoch
      && after.core.machine.ledger.limits == w.core.machine.ledger.limits
      && |ActiveBag(after.core.machine.pending)| == |ActiveBag(w.core.machine.pending)| + 1
      && after.core.machine.pending == w.core.machine.pending + [Machine.Accepted(w.permits[i], frame.retained)]
      && after.core.writer.frames == w.core.writer.frames + [Admission.Queued(w.permits[i], frame)]
  {
    var p := w.permits[i];
    var r := Machine.Accepted(p, frame.retained);
    CommittedLimits(w.core.machine.ledger, p.reservation, frame.retained);
    ActiveConcat(w.core.machine.pending, [r]);
    ActiveSingle(r);
    hide ActiveBag, CommitPermit;
  }

  lemma DropSlot(w: World, i: nat)
    requires Steady(w) && i < |w.permits|
    ensures var after := DropPermit(w, i);
      Steady(after) && after.trace == w.trace && after.permits == RemoveAt(w.permits, i) && after.wire == w.wire
      && after.core.writer == w.core.writer && after.core.machine.pending == w.core.machine.pending
      && after.core.machine.phase == w.core.machine.phase
      && after.core.machine.gate == w.core.machine.gate && after.core.machine.epoch == w.core.machine.epoch
      && after.core.machine.ledger.limits == w.core.machine.ledger.limits
  {
    var g := SteadyGhosts(w);
    DroppedLimits(w.core.machine.ledger, w.permits[i].reservation);
    hide Sound, Busy, Release, DistinctIds;
    DropSteps(w, g, i);
  }

  /** A sane owner holds no more records than its operation capacity. */
  lemma PendingBound(w: World)
    requires Sane(w)
    ensures |w.permits| + |w.core.machine.pending| <= w.core.machine.ledger.limits.maxOperations
    ensures |ActiveBag(w.core.machine.pending)| <= |w.core.machine.pending|
    ensures DistinctIds(w.core.machine.pending)
  {
    var g :| Inv(w, g);
    InvHoldings(w, g);
    ActiveBound(w.core.machine.pending);
    SoundDistinct(w, g, if w.core.poisoned.Some? then Loose else Tight);
    hide Sound, Busy, DistinctIds, ActiveBag;
  }

  lemma {:induction false} ActiveBound(pending: seq<Record>)
    ensures |ActiveBag(pending)| <= |pending|
  {
    if pending != [] { ActiveBound(pending[..|pending| - 1]); }
  }

  lemma OperationsCount(w: World)
    requires Sane(w)
    ensures w.core.machine.ledger.operations == |w.permits| + |w.core.machine.pending|
  {
    var g :| Inv(w, g);
    InvHoldings(w, g);
    hide Sound, Busy;
  }

  /** The core after one of its permits was dropped. */
  function WithoutPermit(c: CoreState, permit: Permit): CoreState {
    c.(machine := c.machine.(ledger := Release(c.machine.ledger, permit.reservation, true, true)))
  }

  lemma DropCore(w: World, i: nat)
    requires i < |w.permits|
    ensures DropPermit(w, i).core == WithoutPermit(w.core, w.permits[i])
  {
  }
}
