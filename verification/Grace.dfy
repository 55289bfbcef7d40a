/** Which drained closures find an operation unfinished: exactly those a caller asked for. */
module Grace {
  import opened Primitives
  import opened KeySet
  import opened Ledger
  import opened Operations
  import opened Writer
  import opened Recovery
  import opened Core
  import opened World
  import opened Moves
  import opened Removal
  import opened Closure
  import opened Settlement
  import opened Admission
  import opened Rescue
  import opened Steps
  import opened Reports
  import opened Runs
  import opened Guarantees
  import Progress
  import Machine

  /** An operation failed because its connection closed as drained. */
  predicate FailedDrained(e: Effect) {
    e.PublishOutcome? && e.outcome.Failed? && e.outcome.failure == ConnectionClosed(CloseReason.Drained)
  }

  ghost predicate Speaks(effects: seq<Effect>) {
    exists j :: 0 <= j < |effects| && FailedDrained(effects[j])
  }

  ghost predicate Unfinished(pending: seq<Record>) {
    exists i :: 0 <= i < |pending| && !pending[i].phase.Terminal?
  }

  lemma SpeaksConcat(a: seq<Effect>, b: seq<Effect>)
    ensures Speaks(a + b) <==> Speaks(a) || Speaks(b)
  {
    if Speaks(a) {
      var j :| 0 <= j < |a| && FailedDrained(a[j]);
      assert FailedDrained((a + b)[j]);
    }
    if Speaks(b) {
      var j :| 0 <= j < |b| && FailedDrained(b[j]);
      assert FailedDrained((a + b)[|a| + j]);
    }
  }

  lemma UnfinishedMore(front: seq<Record>, r: Record)
    ensures Unfinished(front + [r]) <==> Unfinished(front) || !r.phase.Terminal?
  {
    var pending := front + [r];
    if Unfinished(front) {
      var i :| 0 <= i < |front| && !front[i].phase.Terminal?;
      assert !pending[i].phase.Terminal?;
    }
    assert pending[|front|] == r;
  }

  /** Blame never claims that the connection was drained. */
  predicate Blameless(blame: Option<Machine.Blame>) {
    blame.Some? ==> blame.value.failure != ConnectionClosed(CloseReason.Drained)
  }

  lemma FarewellSpeaks(epoch: Epoch, reason: CloseReason, blame: Option<Machine.Blame>, r: Record)
    requires Blameless(blame) && (reason.Drained? ==> blame.None?)
    ensures Speaks(RecordFarewell(epoch, reason, blame, r)) <==> reason.Drained? && !r.phase.Terminal?
  {
    var bye := RecordFarewell(epoch, reason, blame, r);
    if !r.phase.Terminal? {
      assert bye[1] == PublishOutcome(epoch, r.id, Failed(Machine.ClosedFailure(reason, blame, r), r.delivery));
    }
  }

  /** Closing fails operations as drained exactly when that is its reason and some were unfinished. */
  lemma {:induction false} ClosingSpeaks(
    epoch: Epoch, reason: CloseReason, blame: Option<Machine.Blame>, pending: seq<Record>)
    requires Blameless(blame) && (reason.Drained? ==> blame.None?)
    ensures Speaks(Visible(Machine.CloseEffects(epoch, reason, blame, pending))) <==> reason.Drained? && Unfinished(pending)
  {
    if pending != [] {
      hide Visible, Machine.CloseEffects, RecordFarewell, Speaks, Unfinished;
      var front, r := pending[..|pending| - 1], pending[|pending| - 1];
      ClosingSpeaks(epoch, reason, blame, front);
      assert front + [r] == pending;
      ClosingStep(epoch, reason, blame, front, r);
      FarewellSpeaks(epoch, reason, blame, r);
      SpeaksConcat(Visible(Machine.CloseEffects(epoch, reason, blame, front)), RecordFarewell(epoch, reason, blame, r));
      UnfinishedMore(front, r);
    }
  }

  // --------------------------------------------------------------- what each step adds

  /** The step's own effects fail an operation as drained exactly when `speaks`. */
  ghost predicate Adds(w: World, after: World, speaks: bool) {
    w.trace <= after.trace && (Speaks(after.trace[|w.trace|..]) <==> speaks)
  }

  lemma AddsNothing(w: World, after: World)
    requires after.trace == w.trace
    ensures Adds(w, after, false)
  {
    assert after.trace[|w.trace|..] == [];
  }

  lemma AddsSome(w: World, after: World, more: seq<Effect>)
    requires after.trace == w.trace + more
    ensures Adds(w, after, Speaks(more))
  {
    assert after.trace[|w.trace|..] == more;
  }

  lemma AddsThen(w: World, middle: World, after: World, a: bool, b: bool)
    requires Adds(w, middle, a) && Adds(middle, after, b)
    ensures Adds(w, after, a || b)
  {
    var x, y := middle.trace[|w.trace|..], after.trace[|middle.trace|..];
    SpeaksConcat(x, y);
    assert after.trace[|w.trace|..] == x + y;
  }

  lemma ClosedAdds(w: World, reason: CloseReason, blame: Option<Machine.Blame>)
    requires Blameless(blame) && (reason.Drained? ==> blame.None?)
    ensures Adds(w, ClosedWorld(w, reason, blame),
                 w.core.machine.phase.Live? && reason.Drained? && Unfinished(w.core.machine.pending))
  {
    var m := w.core.machine;
    if m.phase.Live? {
      hide Visible, Machine.CloseEffects, Machine.ReleaseEach, Unfinished, ClosedWorld, Speaks;
      ClosedTrace(w, reason, blame);
      ClosingSpeaks(m.epoch, reason, blame, m.pending);
      CloseSpeaksNot(m.epoch, reason);
      SpeaksConcat([CloseEpoch(m.epoch, reason)], Visible(Machine.CloseEffects(m.epoch, reason, blame, m.pending)));
      AddsSome(w, ClosedWorld(w, reason, blame), ClosingTrace(m, reason, blame));
    } else {
      assert Visible([]) == [];
      AddsNothing(w, ClosedWorld(w, reason, blame));
    }
  }

  lemma CloseSpeaksNot(epoch: Epoch, reason: CloseReason)
    ensures !Speaks([CloseEpoch(epoch, reason)])
  {
  }

  /** A drain that finishes by itself leaves nobody unfinished. */
  lemma DrainAdds(w: World)
    ensures Adds(w, AfterDrain(w), false)
  {
    hide ClosedWorld, Adds;
    AddsNothing(w, w);
    if w.core.machine.pending == [] {
      ClosedAdds(w, CloseReason.Drained, None);
    }
  }

  lemma RemovedAdds(w: World, i: nat, outcome: OperationOutcome)
    requires i < |w.core.machine.pending| && |w.core.writer.frames| <= |w.core.machine.pending|
    requires !(outcome.Failed? && outcome.failure == ConnectionClosed(CloseReason.Drained))
    ensures Adds(w, AfterDrain(Removed(w, i, outcome)), false)
  {
    hide Adds, AfterDrain;
    var bye := Farewell(w.core.machine.epoch, w.core.machine.pending[i], outcome);
    assert !Speaks(bye);
    AddsSome(w, Removed(w, i, outcome), bye);
    DrainAdds(Removed(w, i, outcome));
    AddsThen(w, Removed(w, i, outcome), AfterDrain(Removed(w, i, outcome)), false, false);
  }

  lemma CancelAdds(w: World, id: OperationId)
    requires |w.core.writer.frames| <= |w.core.machine.pending|
    ensures Adds(w, CancelledWorld(w, id), false)
  {
    hide Adds, Removed, AfterDrain;
    AddsNothing(w, w);
    var at := IndexOf(w.core.machine.pending, id);
    if at.Some? {
      RemovedAdds(w, at.value, Cancelled(NotSent));
      var e := PublishOutcome(w.core.machine.epoch, w.core.machine.pending[at.value].id, Cancelled(PossiblySent));
      assert !Speaks([e]);
      AddsSome(w, Tombstoned(w, at.value), [e]);
    }
  }

  lemma DeadlineAdds(w: World, id: OperationId, now: Moment)
    requires |w.core.writer.frames| <= |w.core.machine.pending|
    ensures Adds(w, ElapsedWorld(w, id, now), false)
  {
    hide Adds, Removed, AfterDrain, ClosedWorld;
    AddsNothing(w, w);
    var at := IndexOf(w.core.machine.pending, id);
    if at.Some? {
      var e := ScheduleDeadline(w.core.machine.epoch, id, w.core.machine.pending[at.value].deadline);
      assert !Speaks([e]);
      AddsSome(w, w.(trace := w.trace + [e]), [e]);
      ClosedAdds(w, DeadlineAfterPossibleSend, None);
      RemovedAdds(w, at.value, Failed(OperationFailure.DeadlineElapsed, NotSent));
    }
  }

  /** The caller closes a live epoch as drained while an operation is unfinished. */
  ghost predicate Hastens(w: World, a: Action) {
    && w.core.poisoned.None? && w.core.machine.phase.Live? && Unfinished(w.core.machine.pending)
    && a == DoInput(CloseRequested(w.core.machine.epoch, CloseReason.Drained))
  }

  lemma RestAdds(w: World, input: Input)
    requires w.core.poisoned.None? && !input.Cancel? && !input.DeadlineReached?
    ensures Adds(w, RestWorld(w, input), Hastens(w, DoInput(input)))
  {
    hide Adds, ClosedWorld, AfterDrain, Unfinished;
    AddsNothing(w, w);
    AddsNothing(w, Regated(w, AdmissionGate.Open, Live));
    AddsNothing(w, Regated(w, GateClosed, Closed));
    var draining := Regated(w, Draining, Live);
    AddsNothing(w, draining);
    DrainAdds(draining);
    AddsThen(w, draining, AfterDrain(draining), false, false);
    ClosedAdds(w, MalformedReply, None);
    if input.CloseRequested? { ClosedAdds(w, input.reason, None); }
  }

  lemma InputAdds(w: World, input: Input)
    requires w.core.poisoned.None? && |w.core.writer.frames| <= |w.core.machine.pending|
    ensures Adds(w, InputWorld(w, input), Hastens(w, DoInput(input)))
  {
    hide Adds, CancelledWorld, ElapsedWorld, RestWorld, Unfinished;
    AddsNothing(w, w);
    match input
    case Cancel(_, id) => CancelAdds(w, id);
    case DeadlineReached(_, id, now) => DeadlineAdds(w, id, now);
    case _ => RestAdds(w, input);
  }

  lemma ReplyAdds(w: World, reply: InboundReply)
    requires |w.core.writer.frames| <= |w.core.machine.pending|
    ensures Adds(w, RepliedWorld(w, reply), false)
  {
    hide Adds, ClosedWorld, Removed, AfterDrain;
    AddsNothing(w, w);
    ClosedAdds(w, UnexpectedReply, None);
    if w.core.machine.pending != [] {
      var front := w.core.machine.pending[0];
      var expected := front.reservation.key;
      ClosedAdds(w, MatchKeyMismatch(expected, reply.key),
        Some(Machine.Blame(front.id, ReplyKeyMismatch(expected, reply.key))));
      RemovedAdds(w, 0, Reply(reply.payload));
    }
  }

  lemma AdvanceAdds(w: World, g: Ghosts, epoch: Epoch, effect: EffectId, count: nat)
    requires Sound(w, g, Tight) && |w.core.writer.frames| <= |w.core.machine.pending|
    requires w.core.writer.frames != [] ==> w.core.writer.frames[0].written <= w.core.writer.frames[0].wire
    ensures Adds(w, AdvancedWorld(w, epoch, effect, count), false)
  {
    hide Sound, Adds, ReportedWorld, Fronted;
    AddsNothing(w, w);
    if w.core.writer.frames != [] {
      FrontBounds(w, g);
      var remaining := w.core.writer.frames[0].wire - w.core.writer.frames[0].written;
      if remaining < count {
        AddsNothing(w, OverReported(w, WriteProgressContract(count, remaining)));
      } else {
        ReportedAdds(w, WrittenCount(w.core.machine.pending, w.core.writer.frames), count);
      }
    }
  }

  lemma ReportedAdds(w: World, k: nat, count: nat)
    requires 0 < |w.core.writer.frames| <= |w.core.machine.pending|
    requires k == WrittenCount(w.core.machine.pending, w.core.writer.frames) < |w.core.machine.pending|
    ensures Adds(w, ReportedWorld(w, count), false)
  {
    hide Adds, ReportedWorld, Progress.Progressed, WrittenWorld, Removed, AfterDrain;
    ReportedCases(w, k, count);
    var moved := Progress.Progressed(w, count);
    MovedTrace(w, count);
    AddsNothing(w, moved);
    AddsNothing(w, WrittenWorld(moved));
    RemovedAdds(moved, k, WriteDone(moved.core.machine.pending[k].delivery));
    AddsThen(w, moved, DoneWorld(w, k, count), false, false);
  }

  lemma MovedTrace(w: World, count: nat)
    requires 0 < |w.core.writer.frames| <= |w.core.machine.pending|
    ensures var moved := Progress.Progressed(w, count);
      moved.trace == w.trace && |moved.core.writer.frames| <= |moved.core.machine.pending| == |w.core.machine.pending|
      && 0 < |moved.core.writer.frames| && WrittenWorld(moved).trace == w.trace
  {
  }

  // --------------------------------------------------------------- every run

  lemma AdmissionAdds(w: World, g: Ghosts, a: Action)
    requires Inv(w, g) && (a.DoReserve? || a.DoDropPermit? || a.DoCommit?)
    requires w.core.machine.ledger.limits.Valid() && w.core.machine.ledger.limits.InSpace(w.core.machine.ledger.nextKey)
    ensures Adds(w, Step(w, a), false)
  {
    hide Sound, Busy, Adds, Core.Reserve, Core.Commit, Release;
    match a
    case DoReserve(now, options) => AddsNothing(w, StepReserve(w, now, options));
    case DoDropPermit(i) => AddsNothing(w, Step(w, a));
    case DoCommit(i, frame) =>
      AddsNothing(w, w);
      if i < |w.permits| {
        if w.core.poisoned.Some? {
          BrokenAdmission(w, g, a);
        } else {
          CommitAdds(w, g, i, frame);
        }
      }
    case _ =>
  }

  lemma CommitAdds(w: World, g: Ghosts, i: nat, frame: Frame)
    requires Inv(w, g) && w.core.poisoned.None? && i < |w.permits|
    ensures Adds(w, StepCommit(w, i, frame), false)
  {
    hide Sound, Busy, Adds, StepCommit, Machine.CommitFailure;
    CommitComputes(w, g, i, frame);
    var e := ScheduleDeadline(w.core.machine.epoch, w.permits[i].operation, w.permits[i].deadline);
    assert !Speaks([e]);
    AddsSome(w, Committed(w, i, frame), [e]);
    AddsNothing(w, w);
  }

  lemma TransitionAdds(w: World, g: Ghosts, a: Action)
    requires Inv(w, g) && |w.core.writer.frames| <= |w.core.machine.pending| && (a.DoInput? || a.DoReply?)
    requires w.core.machine.ledger.limits.Valid() && w.core.machine.ledger.limits.InSpace(w.core.machine.ledger.nextKey)
    ensures Adds(w, Step(w, a), Hastens(w, a))
  {
    hide Inv, Adds, InputWorld, RepliedWorld, Core.Apply, Core.ApplyReply, Unfinished;
    AddsNothing(w, w);
    match a
    case DoInput(input) =>
      InputWorldly(w, g, input);
      if w.core.poisoned.None? { InputAdds(w, input); }
    case DoReply(reply) =>
      ReplyWorldly(w, g, reply);
      ReplyAdds(w, reply);
  }

  lemma ReportAdds(w: World, g: Ghosts, epoch: Epoch, effect: EffectId, count: nat)
    requires Inv(w, g)
    ensures Adds(w, StepAdvance(w, epoch, effect, count), false)
  {
    hide Sound, Busy, Adds, AdvancedWorld, StepAdvance;
    if w.core.poisoned.Some? {
      BrokenAdvance(w, g, epoch, effect, count);
      AddsNothing(w, w);
    } else {
      AdvanceComputes(w, g, epoch, effect, count);
      AdvanceAdds(w, g, epoch, effect, count);
    }
  }

  lemma StepAdds(w: World, a: Action)
    requires Sane(w)
    requires w.core.machine.ledger.limits.Valid() && w.core.machine.ledger.limits.InSpace(w.core.machine.ledger.nextKey)
    ensures Adds(w, Step(w, a), Hastens(w, a))
  {
    hide Inv, Adds, StepAdvance, StepRecover, Rescued, Unfinished;
    var g :| Inv(w, g);
    InvCounts(w, g);
    if a.DoInput? || a.DoReply? {
      hide Step, Hastens;
      TransitionAdds(w, g, a);
    } else if a.DoAdvance? {
      ReportAdds(w, g, a.epoch, a.effect, a.count);
    } else if a.DoRecover? {
      RescuedStep(w, g);
      RescuedTrace(w);
      AddsNothing(w, Rescued(w));
    } else {
      hide Step;
      AdmissionAdds(w, g, a);
    }
  }

  lemma RescuedTrace(w: World)
    requires |w.core.writer.frames| <= |w.core.machine.pending|
    ensures Rescued(w).trace == w.trace
  {
  }

  ghost predicate HastenedAt(setup: Setup, actions: seq<Action>, i: nat)
    requires setup.limits.Valid() && i < |actions|
  {
    Hastens(Run(setup, actions[..i]), actions[i])
  }

  /** In every run an operation failed because its connection closed as drained if and only if a caller
      asked for that closure while an operation was unfinished. A drain that ends by itself never fails one. */
  lemma {:induction false} DrainedUnfinishedOnlyByRequest(setup: Setup, actions: seq<Action>)
    requires setup.limits.Valid()
    ensures Speaks(Run(setup, actions).trace) <==> exists i: nat :: i < |actions| && HastenedAt(setup, actions, i)
  {
    hide Step, Sane, Hastens, Speaks;
    if actions != [] {
      var front, n := actions[..|actions| - 1], |actions| - 1;
      DrainedUnfinishedOnlyByRequest(setup, front);
      var before, after := Run(setup, front), Run(setup, actions);
      RunLast(setup, actions);
      StepAdds(before, actions[n]);
      SpeaksConcat(before.trace, after.trace[|before.trace|..]);
      assert after.trace == before.trace + after.trace[|before.trace|..];
      assert forall i: nat :: i < n ==> front[..i] == actions[..i];
      assert forall i: nat :: i < n ==> (HastenedAt(setup, front, i) <==> HastenedAt(setup, actions, i));
      assert HastenedAt(setup, actions, n) <==> Hastens(before, actions[n]);
    } else {
      NothingSpoken(setup);
    }
  }

  lemma NothingSpoken(setup: Setup)
    ensures !Speaks(setup.Start().trace)
  {
  }
}
