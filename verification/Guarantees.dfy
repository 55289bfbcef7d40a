/** What every run of one owner guarantees, whatever the order of reservations, permit drops,
    commits, inputs, replies, progress reports and recoveries. */
module Guarantees {
  import opened Primitives
  import opened KeySet
  import opened Ledger
  import opened Operations
  import opened Writer
  import opened Journal
  import opened Recovery
  import opened Core
  import opened World
  import opened Moves
  import opened Progress
  import opened Removal
  import opened Closure
  import opened Settlement
  import opened Agreement
  import opened Admission
  import opened Rescue
  import opened Reconciling
  import opened Steps
  import opened Reports
  import opened Runs
  import Machine

  // --------------------------------------------------------------- order of phases and gates

  function PhaseRank(p: ConnectionPhase): nat {
    match p case Live => 0 case Closing => 1 case Closed => 2
  }

  function GateRank(g: AdmissionGate): nat {
    match g case SessionOnly => 0 case Open => 1 case Draining => 2 case GateClosed => 3
  }

  /** Nothing but an over-report breaks an owner, phase and gate only move forward, and history is
      only added to. */
  ghost predicate Forward(w: World, after: World) {
    && after.core.poisoned == w.core.poisoned
    && Later(w, after)
  }

  ghost predicate Later(w: World, after: World) {
    && PhaseRank(w.core.machine.phase) <= PhaseRank(after.core.machine.phase)
    && GateRank(w.core.machine.gate) <= GateRank(after.core.machine.gate)
    && after.core.machine.epoch == w.core.machine.epoch
    && w.trace <= after.trace && w.wire <= after.wire && w.recovered <= after.recovered
    && CommitIds(w.commits) <= CommitIds(after.commits)
  }

  lemma LaterTwice(a: World, b: World, c: World)
    requires Later(a, b) && Later(b, c)
    ensures Later(a, c)
  {
  }

  lemma ClosedForward(w: World, reason: CloseReason, blame: Option<Machine.Blame>)
    requires w.core.machine.phase.Live?
    ensures Forward(w, ClosedWorld(w, reason, blame))
  {
    hide Machine.CloseEffects, Machine.ReleaseEach, Visible;
  }

  lemma RemovedForward(w: World, i: nat, outcome: OperationOutcome)
    requires i < |w.core.machine.pending| && |w.core.writer.frames| <= |w.core.machine.pending|
    requires w.core.machine.gate.Draining? ==> w.core.machine.phase.Live?
    ensures Forward(w, AfterDrain(Removed(w, i, outcome)))
  {
    hide Release, FramesWithout, RetainedSum, ClosedWorld;
    var removed := Removed(w, i, outcome);
    assert Forward(w, removed);
    if removed.core.machine.gate.Draining? && removed.core.machine.pending == [] {
      ClosedForward(removed, CloseReason.Drained, None);
      LaterTwice(w, removed, AfterDrain(removed));
    }
  }

  lemma Unmoved(w: World)
    ensures Later(w, w) && Forward(w, w)
  {
  }

  lemma TombForward(w: World, i: nat)
    requires i < |w.core.machine.pending|
    ensures Forward(w, Tombstoned(w, i))
  {
    hide CommitIds;
  }

  lemma RearmForward(w: World, e: Effect)
    ensures Forward(w, w.(trace := w.trace + [e]))
  {
    hide CommitIds;
  }

  lemma RegatedForward(w: World, gate: AdmissionGate, phase: ConnectionPhase)
    requires PhaseRank(w.core.machine.phase) <= PhaseRank(phase) && GateRank(w.core.machine.gate) <= GateRank(gate)
    ensures Forward(w, Regated(w, gate, phase))
  {
    hide CommitIds;
  }

  lemma InputForward(w: World, g: Ghosts, input: Input)
    requires Sound(w, g, Tight) && |w.core.writer.frames| <= |w.core.machine.pending|
    ensures Forward(w, InputWorld(w, input))
  {
    hide Sound, Removed, AfterDrain, ClosedWorld, Forward, Tombstoned, Regated;
    SoundGate(w, g);
    SoundCounts(w, g);
    Unmoved(w);
    var m := w.core.machine;
    match input
    case Cancel(_, id) =>
      var index := IndexOf(m.pending, id);
      if index.Some? {
        RemovedForward(w, index.value, Cancelled(NotSent));
        TombForward(w, index.value);
      }
    case DeadlineReached(_, id, _) =>
      var index := IndexOf(m.pending, id);
      if index.Some? {
        RearmForward(w, ScheduleDeadline(m.epoch, id, m.pending[index.value].deadline));
        RemovedForward(w, index.value, Failed(OperationFailure.DeadlineElapsed, NotSent));
        ClosedForward(w, DeadlineAfterPossibleSend, None);
      }
    case _ => RestForward(w, input);
  }

  lemma RestForward(w: World, input: Input)
    requires w.core.machine.phase.Live? <==> !w.core.machine.gate.GateClosed?
    ensures Forward(w, RestWorld(w, input))
  {
    hide AfterDrain, ClosedWorld, Forward, Regated;
    Unmoved(w);
    var m := w.core.machine;
    match input
    case ReplyMalformed(_) => if m.phase.Live? { ClosedForward(w, MalformedReply, None); }
    case CloseRequested(_, reason) => if m.phase.Live? { ClosedForward(w, reason, None); }
    case BeginDrain(_) => if m.phase.Live? { DrainForward(w); }
    case OpenAdmission(_) => if m.phase.Live? && m.gate.SessionOnly? { RegatedForward(w, AdmissionGate.Open, Live); }
    case EpochClosed(_) => if m.phase.Closing? { RegatedForward(w, GateClosed, Closed); }
    case _ =>
  }

  lemma DrainForward(w: World)
    requires w.core.machine.phase.Live? && !w.core.machine.gate.GateClosed?
    ensures Forward(w, AfterDrain(Regated(w, Draining, Live)))
  {
    hide ClosedWorld;
    var draining := Regated(w, Draining, Live);
    if w.core.machine.pending == [] {
      ClosedForward(draining, CloseReason.Drained, None);
    }
  }

  lemma ReplyForward(w: World, g: Ghosts, reply: InboundReply)
    requires Sound(w, g, Tight) && |w.core.writer.frames| <= |w.core.machine.pending|
    ensures Forward(w, RepliedWorld(w, reply))
  {
    hide Sound, Removed, AfterDrain, ClosedWorld, Forward;
    SoundGate(w, g);
    Unmoved(w);
    var m := w.core.machine;
    if m.phase.Live? {
      ClosedForward(w, UnexpectedReply, None);
      if m.pending != [] {
        var expected := m.pending[0].reservation.key;
        ClosedForward(w, MatchKeyMismatch(expected, reply.key),
                      Some(Machine.Blame(m.pending[0].id, ReplyKeyMismatch(expected, reply.key))));
        RemovedForward(w, 0, Reply(reply.payload));
      }
    }
  }

  lemma ProgressedForward(w: World, count: nat)
    requires 0 < |w.core.writer.frames| <= |w.core.machine.pending|
    ensures Forward(w, Progressed(w, count))
    ensures Progressed(w, count).core.machine.gate == w.core.machine.gate
    ensures Progressed(w, count).core.machine.phase == w.core.machine.phase
  {
    CreditIds(w.commits, w.core.writer.frames[0].operation, count, count > 0);
    hide Credit, TakenBytes, Crossed, CommitIds;
  }

  lemma AdvanceForward(w: World, g: Ghosts, epoch: Epoch, effect: EffectId, count: nat)
    requires Sound(w, g, Tight) && |w.core.writer.frames| <= |w.core.machine.pending|
    requires w.core.writer.frames != [] ==> w.core.writer.frames[0].written <= w.core.writer.frames[0].wire
    ensures Later(w, AdvancedWorld(w, epoch, effect, count))
    ensures !OverReports(w, DoAdvance(epoch, effect, count)) ==> Forward(w, AdvancedWorld(w, epoch, effect, count))
    ensures OverReports(w, DoAdvance(epoch, effect, count)) ==>
      AdvancedWorld(w, epoch, effect, count).core.poisoned.Some?
  {
    hide Sound, ReportedWorld, Credit, CommitIds;
    SoundGate(w, g);
    SoundCounts(w, g);
    if w.core.writer.frames != [] {
      ProgressedForward(w, count);
      CreditIds(w.commits, w.core.writer.frames[0].operation, 0, true);
      FrontBounds(w, g);
      if w.core.writer.frames[0].written + count <= w.core.writer.frames[0].wire {
        ReportForward(w, WrittenCount(w.core.machine.pending, w.core.writer.frames), count);
      }
    }
  }

  lemma ReportForward(w: World, k: nat, count: nat)
    requires 0 < |w.core.writer.frames| <= |w.core.machine.pending|
    requires k == WrittenCount(w.core.machine.pending, w.core.writer.frames) < |w.core.machine.pending|
    requires w.core.machine.gate.Draining? ==> w.core.machine.phase.Live?
    ensures Forward(w, ReportedWorld(w, count))
  {
    hide Removed, AfterDrain, Progressed, CommitIds;
    ReportedCases(w, k, count);
    ProgressedForward(w, count);
    var moved := Progressed(w, count);
    ProgressedCounts(w, count);
    RemovedForward(moved, k, WriteDone(moved.core.machine.pending[k].delivery));
    hide ReportedWorld;
    assert Later(moved, WrittenWorld(moved));
    LaterTwice(w, moved, WrittenWorld(moved));
    LaterTwice(w, moved, DoneWorld(w, k, count));
  }

  lemma ProgressedCounts(w: World, count: nat)
    requires 0 < |w.core.writer.frames| <= |w.core.machine.pending|
    ensures var moved := Progressed(w, count);
      |moved.core.writer.frames| == |w.core.writer.frames| && |moved.core.machine.pending| == |w.core.machine.pending|
  {
  }

  // --------------------------------------------------------------- only one report can break an owner

  /** A report that claims more bytes than the front frame of a healthy owner has left. */
  predicate OverReports(w: World, a: Action) {
    a.DoAdvance? && w.core.poisoned.None? && w.core.writer.frames != []
    && a.epoch == w.core.machine.epoch && a.effect == w.core.writer.frames[0].effect
    && w.core.writer.frames[0].wire < w.core.writer.frames[0].written + a.count
  }

  ghost predicate Progresses(w: World, a: Action, after: World) {
    && Later(w, after)
    && (after.core.poisoned.Some? <==> w.core.poisoned.Some? || a.DoRecover? || OverReports(w, a))
  }

  lemma ReserveForward(w: World, now: Moment, options: Options)
    requires w.core.machine.ledger.limits.Valid() && w.core.machine.ledger.limits.InSpace(w.core.machine.ledger.nextKey)
    ensures Forward(w, Reserved(w, now, options))
  {
    ReserveFrame(w.core.machine, now, options);
    hide Machine.Reserve, CommitIds;
  }

  lemma DropForward(w: World, i: nat)
    requires i < |w.permits|
    ensures Forward(w, DropPermit(w, i))
  {
    hide Release, CommitIds;
  }

  lemma CommitForward(w: World, i: nat, frame: Frame)
    requires i < |w.permits|
    ensures Forward(w, Committed(w, i, frame))
  {
    assert CommitIds(Committed(w, i, frame).commits)[..|w.commits|] == CommitIds(w.commits);
    hide CommitPermit;
  }

  lemma BrokenAdmission(w: World, g: Ghosts, a: Action)
    requires Inv(w, g) && w.core.poisoned.Some? && (a.DoReserve? || a.DoCommit?)
    requires w.core.machine.ledger.limits.Valid() && w.core.machine.ledger.limits.InSpace(w.core.machine.ledger.nextKey)
    ensures Step(w, a) == w
  {
    hide Inv, Check, Health;
    BrokenRefuses(w, g);
  }

  lemma AdmissionForward(w: World, g: Ghosts, a: Action)
    requires Inv(w, g) && (a.DoReserve? || a.DoDropPermit? || a.DoCommit?)
    requires w.core.machine.ledger.limits.Valid() && w.core.machine.ledger.limits.InSpace(w.core.machine.ledger.nextKey)
    ensures Forward(w, Step(w, a))
  {
    hide Sound, Busy, Forward, StepReserve, DropPermit, StepCommit, Committed, Reserved;
    Unmoved(w);
    match a
    case DoDropPermit(i) => if i < |w.permits| { DropForward(w, i); }
    case DoReserve(now, options) =>
      if w.core.poisoned.Some? { BrokenAdmission(w, g, a); }
      else {
        ReserveComputes(w, g, now, options);
        ReserveForward(w, now, options);
      }
    case DoCommit(i, frame) =>
      if w.core.poisoned.Some? { BrokenAdmission(w, g, a); }
      else if i < |w.permits| {
        CommitComputes(w, g, i, frame);
        CommitForward(w, i, frame);
      }
    case _ =>
  }

  lemma StepProgresses(w: World, a: Action)
    requires Sane(w)
    requires w.core.machine.ledger.limits.Valid() && w.core.machine.ledger.limits.InSpace(w.core.machine.ledger.nextKey)
    ensures Progresses(w, a, Step(w, a))
  {
    hide Inv, Later, StepAdvance, StepRecover;
    var g :| Inv(w, g);
    if a.DoInput? || a.DoReply? {
      hide Step, Progresses;
      TransitionProgresses(w, g, a);
    } else if a.DoAdvance? {
      AdvanceProgresses(w, g, a.epoch, a.effect, a.count);
    } else if a.DoRecover? {
      RecoverProgresses(w, g);
    } else {
      hide Step;
      AdmissionForward(w, g, a);
    }
  }

  lemma TransitionProgresses(w: World, g: Ghosts, a: Action)
    requires Inv(w, g) && (a.DoInput? || a.DoReply?)
    requires w.core.machine.ledger.limits.Valid() && w.core.machine.ledger.limits.InSpace(w.core.machine.ledger.nextKey)
    ensures Progresses(w, a, Step(w, a))
  {
    hide Inv, Later, Core.Apply, Core.ApplyReply;
    match a
    case DoInput(input) => InputProgresses(w, g, input);
    case DoReply(reply) => ReplyProgresses(w, g, reply);
  }

  lemma InputProgresses(w: World, g: Ghosts, input: Input)
    requires Inv(w, g)
    ensures var (c, r) := Core.Apply(w.core, input); Forward(w, Observed(w, c, r))
  {
    Unmoved(w);
    if w.core.poisoned.Some? {
      BrokenRefuses(w, g);
      hide Inv, Check, Later;
    } else {
      SoundCounts(w, g);
      hide Sound, InputWorld, Core.Apply;
      InputComputes(w, g, input);
      InputForward(w, g, input);
    }
  }

  lemma ReplyProgresses(w: World, g: Ghosts, reply: InboundReply)
    requires Inv(w, g)
    ensures var (c, r) := Core.ApplyReply(w.core, reply); Forward(w, Observed(w, c, r))
  {
    Unmoved(w);
    if w.core.poisoned.Some? {
      BrokenRefuses(w, g);
      hide Inv, Check, Later;
    } else {
      SoundCounts(w, g);
      hide Sound, RepliedWorld, Core.ApplyReply;
      ReplyComputes(w, g, reply);
      ReplyForward(w, g, reply);
    }
  }

  lemma AdvanceProgresses(w: World, g: Ghosts, epoch: Epoch, effect: EffectId, count: nat)
    requires Inv(w, g)
    ensures Progresses(w, DoAdvance(epoch, effect, count), StepAdvance(w, epoch, effect, count))
  {
    Unmoved(w);
    if w.core.poisoned.Some? {
      BrokenAdvance(w, g, epoch, effect, count);
      hide Inv, StepAdvance;
    } else {
      SoundCounts(w, g);
      hide Sound, AdvancedWorld, StepAdvance, Later;
      AdvanceComputes(w, g, epoch, effect, count);
      AdvanceForward(w, g, epoch, effect, count);
    }
  }

  lemma RecoverProgresses(w: World, g: Ghosts)
    requires Inv(w, g)
    ensures Later(w, StepRecover(w)) && StepRecover(w).core.poisoned.Some?
  {
    hide Sound, Busy, StepRecover, Handed, Machine.ReleaseEach, CommitIds;
    RecoverExactly(w, g, if w.core.poisoned.Some? then Loose else Tight);
  }

  // --------------------------------------------------------------- runs

  lemma RunLast(setup: Setup, actions: seq<Action>)
    requires setup.limits.Valid() && actions != []
    ensures Run(setup, actions) == Step(Run(setup, actions[..|actions| - 1]), actions[|actions| - 1])
    ensures Progresses(Run(setup, actions[..|actions| - 1]), actions[|actions| - 1], Run(setup, actions))
  {
    hide Step, Progresses, Sane;
    StepProgresses(Run(setup, actions[..|actions| - 1]), actions[|actions| - 1]);
  }

  ghost predicate Breaks(setup: Setup, actions: seq<Action>, i: nat)
    requires setup.limits.Valid() && i < |actions|
  {
    actions[i].DoRecover? || OverReports(Run(setup, actions[..i]), actions[i])
  }

  /** An owner stops working exactly when it is recovered or its transport claims more bytes than a
      frame has left; no order of anything else ever breaks it. */
  lemma {:induction false} OnlyOverReportBreaks(setup: Setup, actions: seq<Action>)
    requires setup.limits.Valid()
    ensures Run(setup, actions).core.poisoned.Some? <==> exists i: nat :: i < |actions| && Breaks(setup, actions, i)
  {
    hide Step, Later, Sane, OverReports;
    if actions != [] {
      var front, n := actions[..|actions| - 1], |actions| - 1;
      OnlyOverReportBreaks(setup, front);
      RunLast(setup, actions);
      assert forall i: nat :: i < n ==> front[..i] == actions[..i];
      assert forall i: nat :: i < n ==> (Breaks(setup, front, i) <==> Breaks(setup, actions, i));
      assert Breaks(setup, actions, n) <==> actions[n].DoRecover? || OverReports(Run(setup, front), actions[n]);
    }
  }

  /** Phase and gate never go back, and no byte, outcome or commitment of the past is ever undone. */
  lemma {:induction false} RunsGoForward(setup: Setup, first: seq<Action>, more: seq<Action>)
    requires setup.limits.Valid()
    ensures Later(Run(setup, first), Run(setup, first + more))
  {
    hide Step, Later, Sane, OverReports;
    if more == [] {
      assert first + more == first;
      Unmoved(Run(setup, first));
    } else {
      var front := more[..|more| - 1];
      assert (first + more)[..|first + more| - 1] == first + front;
      RunsGoForward(setup, first, front);
      RunLast(setup, first + more);
      LaterTwice(Run(setup, first), Run(setup, first + front), Run(setup, first + more));
    }
  }

  /** The audit finds nothing in any working owner, and the ledger never fails in any owner. */
  lemma AuditNeverFails(setup: Setup, actions: seq<Action>)
    requires setup.limits.Valid()
    ensures var w := Run(setup, actions);
      (w.core.poisoned.None? ==> Violation(w.core).None?) && !w.core.machine.ledger.poisoned
  {
    var w := Run(setup, actions);
    hide Run, Violation, Identified, Structured, Recorded, Phased, Busy;
    var g :| Inv(w, g);
    NotPoisoned(w);
    if w.core.poisoned.None? { AuditPasses(w, g); }
  }

  /** Every accepted operation has exactly one end or is still pending: outcomes, unfinished records
      and recovered entries together are the accepted identities, each once. */
  lemma ExactlyOnce(setup: Setup, actions: seq<Action>)
    requires setup.limits.Valid()
    ensures var w := Run(setup, actions);
      OutcomeIds(w.trace) + ActiveBag(w.core.machine.pending) + RecoveredBag(w.recovered) == multiset(CommitIds(w.commits))
      && forall c: nat :: c < |w.commits| ==> multiset(CommitIds(w.commits))[w.commits[c].id] == 1
  {
    var w := Run(setup, actions);
    hide Run, OutcomeIds, ActiveBag, RecoveredBag;
    var g :| Inv(w, g);
    forall c: nat | c < |w.commits| ensures multiset(CommitIds(w.commits))[w.commits[c].id] == 1 {
      DistinctBag(CommitIds(w.commits), w.commits[c].id);
      assert CommitIds(w.commits)[c] in multiset(CommitIds(w.commits));
    }
  }

  /** A partly written frame is still the front of the queue, or its epoch is over. */
  predicate StillFront(w: World, c: nat)
    requires c < |w.commits|
  {
    || (w.core.writer.frames != [] && w.core.writer.frames[0].operation == w.commits[c].id
        && w.core.writer.frames[0].written == w.commits[c].sent)
    || (w.core.writer.frames == [] && (!w.core.machine.phase.Live? || w.core.poisoned.Some?))
  }

  /** Frames before the cut are whole or untouched, none past it has moved, and a partly written
      frame can only be the one at the cut. */
  ghost predicate CutFrames(w: World, cut: nat) {
    && CutAt(w.commits, cut)
    && (forall c: nat :: c < |w.commits| && w.commits[c].sent != 0 && !Whole(w.commits[c]) ==> c == cut && StillFront(w, c))
  }

  lemma FramesCut(w: World, g: Ghosts, slack: Slack)
    requires Structured(w, g, slack)
    ensures CutFrames(w, g.cut)
  {
    hide Shaped;
    forall c: nat | c < |w.commits| && w.commits[c].sent != 0 && !Whole(w.commits[c])
      ensures c == g.cut && StillFront(w, c)
    {
      if w.core.writer.frames != [] {
        FrontFacts(w, g, slack);
      }
    }
  }

  /** The wire carries complete frames in commit order, skipping those withdrawn before their first
      byte, and then part of at most one: the front of the queue, unless the epoch closed or the
      owner was recovered under it. */
  lemma WireIsFrames(setup: Setup, actions: seq<Action>)
    requires setup.limits.Valid()
    ensures var w := Run(setup, actions);
      w.wire == Flatten(w.commits) && exists cut: nat :: CutFrames(w, cut)
  {
    var w := Run(setup, actions);
    hide Run, Flatten, CutFrames, Structured, Identified, Accounted;
    var g :| Inv(w, g);
    FramesCut(w, g, if w.core.poisoned.Some? then Loose else Tight);
  }

  /** An outcome or recovered operation says possibly sent exactly when a positive byte count was
      ever reported for its frame, even one the writer refused. */
  lemma DeliveryIsExact(setup: Setup, actions: seq<Action>)
    requires setup.limits.Valid()
    ensures var w := Run(setup, actions); Certain(w.trace, w.recovered, w.commits)
    ensures var w := Run(setup, actions);
      forall c: nat :: c < |w.commits| && 0 < w.commits[c].sent ==> w.commits[c].touched
  {
    var w := Run(setup, actions);
    hide Run;
    var g :| Inv(w, g);
  }

  /** `g.order` is where the pending records stand in commit order, and replies stayed in front of it. */
  ghost predicate AnsweredInOrder(w: World, g: Ghosts) {
    Ordered(w.core.machine.pending, w.commits, g.order) && Answered(w.trace, w.commits, g.order)
  }

  ghost predicate RepliesOrdered(w: World) {
    exists g: Ghosts :: AnsweredInOrder(w, g)
  }

  lemma InOrder(w: World, g: Ghosts)
    requires Inv(w, g)
    ensures RepliesOrdered(w)
  {
    hide Shaped, Tracked, CutAt, Ordered, Answered, Identified, Accounted;
    assert AnsweredInOrder(w, g);
  }

  /** Replies go only to reply-expecting operations whose whole frame was written, in commit order,
      never past an operation still pending. */
  lemma RepliesInOrder(setup: Setup, actions: seq<Action>)
    requires setup.limits.Valid()
    ensures RepliesOrdered(Run(setup, actions))
  {
    var w := Run(setup, actions);
    hide Run, RepliesOrdered, Inv;
    var g :| Inv(w, g);
    InOrder(w, g);
  }

  /** Written records, then the queue's own frames in order; only the front frame has started. */
  lemma PendingIsShaped(setup: Setup, actions: seq<Action>)
    requires setup.limits.Valid()
    ensures var w := Run(setup, actions);
      Shaped(w.core.machine.pending, w.core.writer.frames, if w.core.poisoned.Some? then Loose else Tight)
  {
    var w := Run(setup, actions);
    hide Run;
    var g :| Inv(w, g);
  }

  /** The ledger is the sum over live permits and pending records and stays within its limits; each
      holder owns a different key. */
  lemma LedgerConserved(setup: Setup, actions: seq<Action>)
    requires setup.limits.Valid()
    ensures var w := Run(setup, actions);
      var l := w.core.machine.ledger;
      Balanced(l, Claims(w.permits, w.core.machine.pending))
      && l.operations == |w.permits| + |w.core.machine.pending| && l.permits == |w.permits|
      && l.writeRetained == TotalsOf(PermitClaims(w.permits)).writeRetained + w.core.writer.used
      && l.frames == |w.permits| + |w.core.writer.frames|
  {
    var w := Run(setup, actions);
    hide Run;
    var g :| Inv(w, g);
    Holdings(w, if w.core.poisoned.Some? then Loose else Tight);
    ClaimCount(PermitClaims(w.permits));
    PermitCounts(PermitClaims(w.permits));
    RecordCounts(RecordClaims(w.core.machine.pending));
    TotalsConcat(PermitClaims(w.permits), RecordClaims(w.core.machine.pending));
    hide Structured, Identified, Recorded, WellFormed, TotalsOf;
  }

  lemma {:induction false} PermitCounts(claims: seq<Claim>)
    requires forall i :: 0 <= i < |claims| ==> claims[i].permit && claims[i].held
    ensures TotalsOf(claims).permits == |claims| && TotalsOf(claims).frames == |claims|
  {
    if claims != [] {
      PermitCounts(claims[..|claims| - 1]);
    }
  }

  lemma {:induction false} RecordCounts(claims: seq<Claim>)
    requires forall i :: 0 <= i < |claims| ==> !claims[i].permit
    ensures TotalsOf(claims).permits == 0
  {
    if claims != [] {
      RecordCounts(claims[..|claims| - 1]);
    }
  }

  /** One closure is announced per epoch, exactly when it stopped being live; a live drain of a
      working owner still has something to finish. */
  lemma OneClosure(setup: Setup, actions: seq<Action>)
    requires setup.limits.Valid()
    ensures var w := Run(setup, actions);
      Closures(w.trace) == (if w.core.machine.phase.Live? then 0 else 1)
      && (w.core.machine.phase.Live? <==> !w.core.machine.gate.GateClosed?)
      && (w.core.poisoned.None? && w.core.machine.phase.Live? && w.core.machine.gate.Draining? ==>
            w.core.machine.pending != [])
  {
    var w := Run(setup, actions);
    hide Run, Closures;
    var g :| Inv(w, g);
  }

  /** The writer never refuses a commit: it succeeds, or the policy or a broken owner refused it. */
  lemma CommitNeverRefusedByWriter(setup: Setup, actions: seq<Action>, i: nat, frame: Frame)
    requires setup.limits.Valid() && i < |Run(setup, actions).permits|
    ensures var w := Run(setup, actions);
      var r := Core.Commit(w.core, w.permits[i], frame).1;
      r.Failure? ==> r.error.Policy?
  {
    var w := Run(setup, actions);
    hide Run;
    var g :| Inv(w, g);
    if w.core.poisoned.None? {
      AuditPasses(w, g);
      if Machine.CommitFailure(w.core.machine, w.permits[i], frame.retained).None? {
        WriterNeverRefuses(w, g, i, frame);
      }
      hide Inv, Violation, Machine.CommitFailure, HoldsOperation, HoldsEffect;
    } else {
      BrokenRefuses(w, g);
      hide Inv, Check;
    }
  }

  /** Recovering any reachable owner hands back exactly its unfinished operations, in order, each
      with the frame it still owned; nothing is unmatched, and divergence is reported exactly while a
      journal is armed, which in a working owner it never is. */
  lemma RecoveryIsExact(setup: Setup, actions: seq<Action>)
    requires setup.limits.Valid()
    ensures var w := Run(setup, actions);
      |w.core.writer.frames| <= |w.core.machine.pending|
      && Recover(w.core).1.operations == Handed(w.core.machine.pending, w.core.writer.frames, |w.core.machine.pending|)
      && Recover(w.core).1.unmatched == []
      && (Recover(w.core).1.diverged <==> w.core.journal.armed)
      && (w.core.journal.armed ==> w.core.poisoned.Some?)
  {
    var w := Run(setup, actions);
    hide Run;
    var g :| Inv(w, g);
    RecoverExactly(w, g, if w.core.poisoned.Some? then Loose else Tight);
    hide Structured, Identified, Recorded, Balanced, Handed, Recover;
  }

  // --------------------------------------------------------------- the audit changes nothing

  function Flip(w: World, audited: bool): World {
    w.(core := w.core.(audited := audited))
  }

  lemma FlipInv(w: World, g: Ghosts, audited: bool)
    requires Inv(w, g)
    ensures Inv(Flip(w, audited), g)
  {
    FlipParts(w, g, audited, if w.core.poisoned.Some? then Loose else Tight);
    hide Identified, Structured, Accounted, Recorded;
  }

  lemma FlipParts(w: World, g: Ghosts, audited: bool, slack: Slack)
    requires Sound(w, g, slack)
    ensures Identified(Flip(w, audited), g.delta) && Structured(Flip(w, audited), g, slack)
    ensures Accounted(Flip(w, audited)) && Recorded(Flip(w, audited), g)
  {
    hide Balanced, Shaped, Ordered, Tracked, CutAt, Certain, Answered, Flatten, OutcomeIds, ActiveBag;
  }

  lemma FlipClosed(w: World, reason: CloseReason, blame: Option<Machine.Blame>, audited: bool)
    ensures ClosedWorld(Flip(w, audited), reason, blame) == Flip(ClosedWorld(w, reason, blame), audited)
  {
    hide Release, Machine.ReleaseEach, Machine.CloseEffects, Visible;
  }

  lemma FlipDrained(w: World, audited: bool)
    ensures AfterDrain(Flip(w, audited)) == Flip(AfterDrain(w), audited)
  {
    hide ClosedWorld;
    FlipClosed(w, CloseReason.Drained, None, audited);
  }

  lemma FlipGone(w: World, i: nat, outcome: OperationOutcome, audited: bool)
    requires i < |w.core.machine.pending| && |w.core.writer.frames| <= |w.core.machine.pending|
    ensures AfterDrain(Removed(Flip(w, audited), i, outcome)) == Flip(AfterDrain(Removed(w, i, outcome)), audited)
  {
    hide AfterDrain, Release, RetainedSum, FramesWithout;
    FlipDrained(Removed(w, i, outcome), audited);
  }

  lemma FlipInput(w: World, input: Input, audited: bool)
    requires |w.core.writer.frames| <= |w.core.machine.pending|
    ensures InputWorld(Flip(w, audited), input) == Flip(InputWorld(w, input), audited)
  {
    hide Removed, AfterDrain, ClosedWorld;
    match input
    case Cancel(_, id) =>
      var at := IndexOf(w.core.machine.pending, id);
      if at.Some? { FlipGone(w, at.value, Cancelled(NotSent), audited); }
    case DeadlineReached(_, id, _) =>
      var at := IndexOf(w.core.machine.pending, id);
      FlipClosed(w, DeadlineAfterPossibleSend, None, audited);
      if at.Some? { FlipGone(w, at.value, Failed(OperationFailure.DeadlineElapsed, NotSent), audited); }
    case ReplyMalformed(_) => FlipClosed(w, MalformedReply, None, audited);
    case CloseRequested(_, reason) => FlipClosed(w, reason, None, audited);
    case BeginDrain(_) => FlipDrained(Regated(w, Draining, Live), audited);
    case _ =>
  }

  lemma FlipReply(w: World, reply: InboundReply, audited: bool)
    requires |w.core.writer.frames| <= |w.core.machine.pending|
    ensures RepliedWorld(Flip(w, audited), reply) == Flip(RepliedWorld(w, reply), audited)
  {
    hide Removed, AfterDrain, ClosedWorld;
    FlipClosed(w, UnexpectedReply, None, audited);
    if w.core.machine.pending != [] {
      var front := w.core.machine.pending[0];
      var expected := front.reservation.key;
      FlipClosed(w, MatchKeyMismatch(expected, reply.key),
        Some(Machine.Blame(front.id, ReplyKeyMismatch(expected, reply.key))), audited);
      FlipGone(w, 0, Reply(reply.payload), audited);
    }
  }

  lemma FlipReport(w: World, epoch: Epoch, effect: EffectId, count: nat, audited: bool)
    requires |w.core.writer.frames| <= |w.core.machine.pending|
    requires w.core.writer.frames != [] ==> w.core.writer.frames[0].written <= w.core.writer.frames[0].wire
    ensures AdvancedWorld(Flip(w, audited), epoch, effect, count) == Flip(AdvancedWorld(w, epoch, effect, count), audited)
  {
    hide Release, ReleaseWrite, Machine.ReleaseEach, Machine.CloseEffects, Visible, RetainedSum, FramesWithout, Credit,
      TakenBytes, Crossed;
  }

  lemma FlipReserve(w: World, now: Moment, options: Options, audited: bool)
    requires w.core.machine.ledger.limits.Valid() && w.core.machine.ledger.limits.InSpace(w.core.machine.ledger.nextKey)
    ensures Reserved(Flip(w, audited), now, options) == Flip(Reserved(w, now, options), audited)
  {
    hide Machine.Reserve;
  }

  lemma FlipRescue(w: World, audited: bool)
    requires |w.core.writer.frames| <= |w.core.machine.pending|
    ensures Rescued(Flip(w, audited)) == Flip(Rescued(w), audited)
  {
    hide Handed, Machine.ReleaseEach;
  }

  lemma FlipAdmission(w: World, g: Ghosts, a: Action, audited: bool)
    requires Inv(w, g) && Inv(Flip(w, audited), g) && (a.DoReserve? || a.DoDropPermit? || a.DoCommit?)
    requires w.core.machine.ledger.limits.Valid() && w.core.machine.ledger.limits.InSpace(w.core.machine.ledger.nextKey)
    ensures Step(Flip(w, audited), a) == Flip(Step(w, a), audited)
  {
    var other := Flip(w, audited);
    hide Sound, Busy, StepReserve, StepCommit, Reserved, Release, CommitPermit;
    match a
    case DoDropPermit(i) =>
    case DoReserve(now, options) =>
      if w.core.poisoned.Some? { BrokenAdmission(w, g, a); BrokenAdmission(other, g, a); }
      else {
        ReserveComputes(w, g, now, options);
        ReserveComputes(other, g, now, options);
        FlipReserve(w, now, options, audited);
      }
    case DoCommit(i, frame) =>
      if w.core.poisoned.Some? { BrokenAdmission(w, g, a); BrokenAdmission(other, g, a); }
      else if i < |w.permits| {
        CommitComputes(w, g, i, frame);
        CommitComputes(other, g, i, frame);
      }
    case _ =>
  }

  lemma InputWorldly(w: World, g: Ghosts, input: Input)
    requires Inv(w, g) && |w.core.writer.frames| <= |w.core.machine.pending|
    ensures var (c, r) := Core.Apply(w.core, input);
      Observed(w, c, r) == if w.core.poisoned.Some? then w else InputWorld(w, input)
  {
    hide Sound, Busy, InputWorld;
    if w.core.poisoned.Some? {
      BrokenRefuses(w, g);
      hide Check;
    } else {
      hide Core.Apply;
      InputComputes(w, g, input);
    }
  }

  lemma ReplyWorldly(w: World, g: Ghosts, reply: InboundReply)
    requires Inv(w, g) && |w.core.writer.frames| <= |w.core.machine.pending|
    ensures var (c, r) := Core.ApplyReply(w.core, reply);
      Observed(w, c, r) == if w.core.poisoned.Some? then w else RepliedWorld(w, reply)
  {
    hide Sound, Busy, RepliedWorld;
    if w.core.poisoned.Some? {
      BrokenRefuses(w, g);
      hide Check;
    } else {
      hide Core.ApplyReply;
      ReplyComputes(w, g, reply);
    }
  }

  lemma InvCounts(w: World, g: Ghosts)
    requires Inv(w, g)
    ensures |w.core.writer.frames| <= |w.core.machine.pending|
  {
    hide Identified, Accounted, Recorded;
  }

  lemma FlipAdvance(w: World, g: Ghosts, epoch: Epoch, effect: EffectId, count: nat, audited: bool)
    requires Inv(w, g) && Inv(Flip(w, audited), g)
    ensures StepAdvance(Flip(w, audited), epoch, effect, count) == Flip(StepAdvance(w, epoch, effect, count), audited)
  {
    hide Sound, Busy, AdvancedWorld, StepAdvance;
    if w.core.poisoned.Some? {
      BrokenAdvance(w, g, epoch, effect, count);
      BrokenAdvance(Flip(w, audited), g, epoch, effect, count);
    } else {
      AdvanceComputes(w, g, epoch, effect, count);
      AdvanceComputes(Flip(w, audited), g, epoch, effect, count);
      FlipReport(w, epoch, effect, count, audited);
    }
  }

  lemma FlipTransition(w: World, g: Ghosts, a: Action, audited: bool)
    requires Inv(w, g) && Inv(Flip(w, audited), g) && |w.core.writer.frames| <= |w.core.machine.pending|
    requires w.core.machine.ledger.limits.Valid() && w.core.machine.ledger.limits.InSpace(w.core.machine.ledger.nextKey)
    requires a.DoInput? || a.DoReply?
    ensures Step(Flip(w, audited), a) == Flip(Step(w, a), audited)
  {
    hide Inv, InputWorld, RepliedWorld, Core.Apply, Core.ApplyReply;
    var other := Flip(w, audited);
    match a
    case DoInput(input) =>
      InputWorldly(w, g, input);
      InputWorldly(other, g, input);
      FlipInput(w, input, audited);
    case DoReply(reply) =>
      ReplyWorldly(w, g, reply);
      ReplyWorldly(other, g, reply);
      FlipReply(w, reply, audited);
  }

  /** Each step of an owner is the same with and without its audit. */
  lemma FlipStep(w: World, a: Action, audited: bool)
    requires Sane(w)
    requires w.core.machine.ledger.limits.Valid() && w.core.machine.ledger.limits.InSpace(w.core.machine.ledger.nextKey)
    ensures Step(Flip(w, audited), a) == Flip(Step(w, a), audited)
  {
    hide Inv, StepAdvance, StepRecover, Rescued;
    var g :| Inv(w, g);
    var other := Flip(w, audited);
    FlipInv(w, g, audited);
    InvCounts(w, g);
    if a.DoInput? || a.DoReply? {
      hide Step;
      FlipTransition(w, g, a, audited);
    } else if a.DoAdvance? {
      FlipAdvance(w, g, a.epoch, a.effect, a.count, audited);
    } else if a.DoRecover? {
      RescuedStep(w, g);
      RescuedStep(other, g);
      FlipRescue(w, audited);
    } else {
      hide Step;
      FlipAdmission(w, g, a, audited);
    }
  }

  lemma RescuedStep(w: World, g: Ghosts)
    requires Inv(w, g) && |w.core.writer.frames| <= |w.core.machine.pending|
    ensures StepRecover(w) == Rescued(w)
  {
    hide Sound, Busy, StepRecover, Rescued, Recover;
    RecoverExactly(w, g, if w.core.poisoned.Some? then Loose else Tight);
  }

  /** A release build and an audited build do the same in every run. */
  lemma {:induction false} AuditChangesNothing(setup: Setup, actions: seq<Action>)
    requires setup.limits.Valid()
    ensures Run(setup.(audited := true), actions) == Flip(Run(setup.(audited := false), actions), true)
  {
    if actions != [] {
      hide Step, Sane, Later, OverReports;
      AuditChangesNothing(setup, actions[..|actions| - 1]);
      FlipStep(Run(setup.(audited := false), actions[..|actions| - 1]), actions[|actions| - 1], true);
    }
  }
}