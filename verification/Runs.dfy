/** Whole runs: from a fresh owner, every sequence of actions keeps every fact. */
module Runs {
  import opened Primitives
  import opened KeySet
  import opened Ledger
  import opened Operations
  import opened Writer
  import opened Journal
  import opened Recovery
  import opened Core
  import opened World
  import opened Moves
  import opened Removal
  import opened Closure
  import opened Settlement
  import opened Agreement
  import opened Admission
  import opened Rescue
  import opened Reconciling
  import opened Steps
  import opened Reports
  import Machine

  // --------------------------------------------------------------- inputs keep the invariant

  /** A healthy step that only announced something neither final nor closing. */
  lemma AnnouncedKeeps(w: World, g: Ghosts, e: Effect)
    requires Inv(w, g) && w.core.poisoned.None? && !e.PublishOutcome? && !e.CloseEpoch?
    ensures Inv(w.(trace := w.trace + [e]), g)
  {
    hide Shaped, Ordered, Tracked, CutAt, Accounted, Certain, Answered, OutcomeIds, ActiveBag, Closures, Flatten;
    OutcomeConcat(w.trace, [e]);
    OutcomeSingle(e);
    ClosuresConcat(w.trace, [e]);
    NoClosures([e]);
    SilentTruthful(e, w.commits);
    CertainExtends(w.trace, [e], w.recovered, w.commits);
    AnsweredExtends(w.trace, [e], w.commits, g.order, g.order);
    assert Identified(w.(trace := w.trace + [e]), g.delta);
    assert Accounted(w.(trace := w.trace + [e])) by { SameAccounts(w, w.trace + [e]); }
  }

  lemma SilentTruthful(e: Effect, commits: seq<Commitment>)
    requires !e.PublishOutcome?
    ensures Truthful(e, commits)
  {
  }

  lemma SameAccounts(w: World, trace: seq<Effect>)
    requires Accounted(w)
    ensures Accounted(w.(trace := trace))
  {
    hide Balanced, RetainedSum;
  }

  lemma ClosedInv(w: World, g: Ghosts, reason: CloseReason, blame: Option<Machine.Blame>) returns (h: Ghosts)
    requires Sound(w, g, Tight) && w.core.machine.phase.Live?
    ensures Inv(ClosedWorld(w, reason, blame), h)
  {
    hide Sound, Busy, ClosedWorld;
    ClosureKeeps(w, g, Tight, reason, blame);
    h := g.(order := []);
    SoundHealthy(ClosedWorld(w, reason, blame), h, Tight);
  }

  lemma TombInv(w: World, g: Ghosts, i: nat)
    requires Inv(w, g) && w.core.poisoned.None? && i < |w.core.machine.pending|
    requires w.core.machine.pending[i].delivery.PossiblySent? && !w.core.machine.pending[i].phase.Terminal?
    ensures Inv(Tombstoned(w, i), g)
  {
    hide Sound, Busy, Tombstoned;
    TombKeeps(w, g, i);
    SoundHealthy(Tombstoned(w, i), g, Tight);
  }

  lemma DrainingInv(w: World, g: Ghosts) returns (h: Ghosts)
    requires Sound(w, g, Tight)
    ensures Inv(AfterDrain(w), h)
  {
    hide Sound, Busy, AfterDrain;
    DrainKeeps(w, g);
    h := DrainedGhosts(w, g);
    SoundHealthy(AfterDrain(w), h, Tight);
  }

  lemma CancelKeeps(w: World, g: Ghosts, id: OperationId) returns (h: Ghosts)
    requires Inv(w, g) && w.core.poisoned.None? && |w.core.writer.frames| <= |w.core.machine.pending|
    ensures Inv(CancelledWorld(w, id), h)
  {
    hide Sound, Busy, Removed, AfterDrain, Removable, Tombstoned;
    h := g;
    var index := IndexOf(w.core.machine.pending, id);
    if index.Some? && !w.core.machine.pending[index.value].phase.Terminal? {
      if w.core.machine.pending[index.value].delivery.NotSent? {
        UnsentRemovable(w, g, index.value, Cancelled(NotSent));
        h := RemovedInv(w, g, Tight, index.value, Cancelled(NotSent));
      } else {
        TombInv(w, g, index.value);
      }
    }
  }

  lemma DeadlineKeeps(w: World, g: Ghosts, id: OperationId, now: Moment) returns (h: Ghosts)
    requires Inv(w, g) && w.core.poisoned.None? && |w.core.writer.frames| <= |w.core.machine.pending|
    ensures Inv(ElapsedWorld(w, id, now), h)
  {
    hide Sound, Busy, Removed, AfterDrain, Removable, ClosedWorld;
    h := g;
    SoundCounts(w, g);
    var index := IndexOf(w.core.machine.pending, id);
    if index.Some? {
      var r := w.core.machine.pending[index.value];
      if now < r.deadline {
        AnnouncedKeeps(w, g, ScheduleDeadline(w.core.machine.epoch, id, r.deadline));
      } else if r.delivery.PossiblySent? {
        h := ClosedInv(w, g, DeadlineAfterPossibleSend, None);
      } else {
        var outcome := Failed(OperationFailure.DeadlineElapsed, NotSent);
        UnsentRemovable(w, g, index.value, outcome);
        h := RemovedInv(w, g, Tight, index.value, outcome);
      }
    }
  }

  lemma RegatedInv(w: World, g: Ghosts, gate: AdmissionGate, phase: ConnectionPhase)
    requires Sound(w, g, Tight) && !gate.Draining?
    requires phase.Live? == w.core.machine.phase.Live? && (phase.Live? <==> !gate.GateClosed?)
    ensures Inv(Regated(w, gate, phase), g)
  {
    hide Sound;
    RegatedKeeps(w, g, gate, phase);
    SoundHealthy(Regated(w, gate, phase), g, Tight);
  }

  lemma RestKeeps(w: World, g: Ghosts, input: Input) returns (h: Ghosts)
    requires Inv(w, g) && w.core.poisoned.None?
    ensures Inv(RestWorld(w, input), h)
  {
    hide Sound, Busy, AfterDrain, ClosedWorld, Regated;
    h := g;
    var m := w.core.machine;
    match input
    case OpenAdmission(epoch) =>
      if epoch == m.epoch && m.phase.Live? && m.gate.SessionOnly? { RegatedInv(w, g, AdmissionGate.Open, Live); }
    case ReplyMalformed(epoch) =>
      if epoch == m.epoch && m.phase.Live? { h := ClosedInv(w, g, MalformedReply, None); }
    case BeginDrain(epoch) =>
      if epoch == m.epoch && m.phase.Live? && !m.gate.Draining? {
        RegatedKeeps(w, g, Draining, Live);
        h := DrainingInv(Regated(w, Draining, Live), g);
      }
    case CloseRequested(epoch, reason) =>
      if epoch == m.epoch && m.phase.Live? { h := ClosedInv(w, g, reason, None); }
    case EpochClosed(epoch) =>
      if epoch == m.epoch && m.phase.Closing? { RegatedInv(w, g, GateClosed, Closed); }
    case _ =>
  }

  lemma ReplyKeeps(w: World, g: Ghosts, reply: InboundReply) returns (h: Ghosts)
    requires Inv(w, g) && w.core.poisoned.None? && |w.core.writer.frames| <= |w.core.machine.pending|
    ensures Inv(RepliedWorld(w, reply), h)
  {
    hide Sound, Busy, Removed, AfterDrain, Removable, ClosedWorld;
    h := g;
    var m := w.core.machine;
    if reply.epoch == m.epoch && m.phase.Live? {
      if m.pending == [] || !Machine.AwaitsReply(m.pending[0]) {
        h := ClosedInv(w, g, UnexpectedReply, None);
      } else {
        var expected := m.pending[0].reservation.key;
        if reply.key == expected {
          AnsweredRemovable(w, g, Reply(reply.payload));
          h := RemovedInv(w, g, Tight, 0, Reply(reply.payload));
        } else {
          h := ClosedInv(w, g, MatchKeyMismatch(expected, reply.key),
                         Some(Machine.Blame(m.pending[0].id, ReplyKeyMismatch(expected, reply.key))));
        }
      }
    }
  }

  function InputWorld(w: World, input: Input): World
    requires |w.core.writer.frames| <= |w.core.machine.pending|
  {
    match input
    case Cancel(epoch, id) => if epoch == w.core.machine.epoch then CancelledWorld(w, id) else w
    case DeadlineReached(epoch, id, now) => if epoch == w.core.machine.epoch then ElapsedWorld(w, id, now) else w
    case _ => RestWorld(w, input)
  }

  lemma InputComputes(w: World, g: Ghosts, input: Input)
    requires Sound(w, g, Tight)
    ensures |w.core.writer.frames| <= |w.core.machine.pending|
    ensures var (c, r) := Core.Apply(w.core, input); r.Success? && Observed(w, c, r) == InputWorld(w, input)
  {
    hide Sound, Core.Apply, CancelledWorld, ElapsedWorld, RestWorld;
    SoundCounts(w, g);
    match input
    case Cancel(epoch, id) => CancelComputes(w, g, epoch, id);
    case DeadlineReached(epoch, id, now) => DeadlineComputes(w, g, epoch, id, now);
    case _ => RestComputes(w, g, input);
  }

  lemma InputKeeps(w: World, g: Ghosts, input: Input) returns (h: Ghosts)
    requires Inv(w, g) && w.core.poisoned.None? && |w.core.writer.frames| <= |w.core.machine.pending|
    ensures Inv(InputWorld(w, input), h)
  {
    hide Sound, Busy, CancelledWorld, ElapsedWorld, RestWorld;
    h := g;
    match input
    case Cancel(epoch, id) => if epoch == w.core.machine.epoch { h := CancelKeeps(w, g, id); }
    case DeadlineReached(epoch, id, now) => if epoch == w.core.machine.epoch { h := DeadlineKeeps(w, g, id, now); }
    case _ => h := RestKeeps(w, g, input);
  }

  // --------------------------------------------------------------- steps

  /** A world some history explains. */
  ghost predicate Sane(w: World) {
    exists g :: Inv(w, g)
  }

  /** A broken owner refuses inputs and replies without changing anything. */
  lemma BrokenRefuses(w: World, g: Ghosts)
    requires Inv(w, g) && w.core.poisoned.Some?
    ensures Check(w.core) == (w.core, Some(Poisoned(w.core.poisoned.value)))
    ensures Health(w.core) == (w.core, Some(Poisoned(w.core.poisoned.value)))
  {
    NotPoisoned(w);
    hide Sound;
  }

  lemma InputSteps(w: World, g: Ghosts, input: Input) returns (h: Ghosts)
    requires Inv(w, g)
    ensures var (c, r) := Core.Apply(w.core, input); Inv(Observed(w, c, r), h)
  {
    if w.core.poisoned.Some? {
      h := g;
      BrokenRefuses(w, g);
      hide Sound, Check;
    } else {
      hide Sound, Busy, InputWorld, Core.Apply;
      SoundCounts(w, g);
      InputComputes(w, g, input);
      h := InputKeeps(w, g, input);
    }
  }

  lemma ReplySteps(w: World, g: Ghosts, reply: InboundReply) returns (h: Ghosts)
    requires Inv(w, g)
    ensures var (c, r) := Core.ApplyReply(w.core, reply); Inv(Observed(w, c, r), h)
  {
    if w.core.poisoned.Some? {
      h := g;
      BrokenRefuses(w, g);
      hide Sound, Check;
    } else {
      hide Sound, Busy, RepliedWorld, Core.ApplyReply;
      SoundCounts(w, g);
      ReplyComputes(w, g, reply);
      h := ReplyKeeps(w, g, reply);
    }
  }

  lemma AdmissionStep(w: World, g: Ghosts, a: Action)
    requires Inv(w, g) && w.core.machine.ledger.limits.Valid()
    requires w.core.machine.ledger.limits.InSpace(w.core.machine.ledger.nextKey)
    requires a.DoReserve? || a.DoDropPermit? || a.DoCommit? || a.DoRecover?
    ensures Sane(Step(w, a))
  {
    hide Inv, StepReserve, DropPermit, StepCommit, StepRecover;
    match a
    case DoReserve(now, options) => ReserveSteps(w, g, now, options);
    case DoDropPermit(i) => if i < |w.permits| { DropSteps(w, g, i); }
    case DoCommit(i, frame) => if i < |w.permits| { CommitSteps(w, g, i, frame); }
    case DoRecover => RecoverSteps(w, g);
  }

  lemma TransitionStep(w: World, g: Ghosts, a: Action)
    requires Inv(w, g) && w.core.machine.ledger.limits.Valid()
    requires w.core.machine.ledger.limits.InSpace(w.core.machine.ledger.nextKey)
    requires a.DoInput? || a.DoReply? || a.DoAdvance?
    ensures Sane(Step(w, a))
  {
    hide Inv, StepAdvance, Core.Apply, Core.ApplyReply;
    match a
    case DoInput(input) => var h := InputSteps(w, g, input);
    case DoReply(reply) => var h := ReplySteps(w, g, reply);
    case DoAdvance(epoch, effect, count) => var h := AdvanceSteps(w, g, epoch, effect, count);
  }

  /** Every action is defined on a sane world and leaves a sane world. */
  lemma StepKeeps(w: World, a: Action)
    requires Sane(w)
    ensures w.core.machine.ledger.limits.Valid() && w.core.machine.ledger.limits.InSpace(w.core.machine.ledger.nextKey)
    ensures Sane(Step(w, a))
  {
    hide Inv, Step;
    var g :| Inv(w, g);
    InvLimits(w, g);
    if a.DoInput? || a.DoReply? || a.DoAdvance? {
      TransitionStep(w, g, a);
    } else {
      AdmissionStep(w, g, a);
    }
  }

  lemma InvLimits(w: World, g: Ghosts)
    requires Inv(w, g)
    ensures w.core.machine.ledger.limits.Valid() && w.core.machine.ledger.limits.InSpace(w.core.machine.ledger.nextKey)
  {
    hide Identified, Structured, Recorded;
  }

  // --------------------------------------------------------------- runs

  /** How a fresh owner is configured. */
  datatype Setup = Setup(epoch: Epoch, limits: Limits, operationSeed: OperationId, effectSeed: EffectId, audited: bool)
  {
    function Start(): World {
      InitialWorld(epoch, limits, operationSeed, effectSeed, audited)
    }
  }

  lemma StartAccounted(setup: Setup)
    requires setup.limits.Valid()
    ensures Accounted(setup.Start())
  {
    assert Claims([], []) == [];
    assert ClaimedKeys([]) == {};
  }

  lemma StartRecorded(setup: Setup, g: Ghosts)
    ensures Recorded(setup.Start(), g)
  {
    assert multiset(CommitIds([])) == multiset{};
    assert RecoveredBag([]) == multiset{};
  }

  lemma StartStructured(setup: Setup, delta: int)
    requires delta == setup.effectSeed - setup.operationSeed
    ensures Structured(setup.Start(), Ghosts([], delta, 0), Tight)
    ensures Identified(setup.Start(), delta)
  {
  }

  lemma StartPhased(setup: Setup)
    ensures Phased(setup.Start()) && Busy(setup.Start()) && setup.Start().core.poisoned.None?
  {
  }

  lemma StartSane(setup: Setup)
    requires setup.limits.Valid()
    ensures Sane(setup.Start())
  {
    hide Structured, Identified, Accounted, Recorded, Phased, Busy, InitialWorld;
    var g := Ghosts([], setup.effectSeed - setup.operationSeed, 0);
    StartStructured(setup, g.delta);
    StartAccounted(setup);
    StartRecorded(setup, g);
    StartPhased(setup);
    assert Inv(setup.Start(), g);
  }

  /** The world after a sequence of actions. */
  ghost function Run(setup: Setup, actions: seq<Action>): (end: World)
    requires setup.limits.Valid()
    ensures Sane(end)
    ensures end.core.machine.ledger.limits.Valid()
    ensures end.core.machine.ledger.limits.InSpace(end.core.machine.ledger.nextKey)
  {
    if actions == [] then
      StartSane(setup);
      setup.Start()
    else
      var before := Run(setup, actions[..|actions| - 1]);
      StepKeeps(before, actions[|actions| - 1]);
      StepKeeps(Step(before, actions[|actions| - 1]), DoRecover);
      Step(before, actions[|actions| - 1])
  }
}