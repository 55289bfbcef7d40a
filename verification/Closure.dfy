/** The epoch closes: every record leaves at once, in wire order, and every frame with it. */
module Closure {
  import opened Primitives
  import opened KeySet
  import opened Ledger
  import opened Operations
  import opened Writer
  import opened Core
  import opened World
  import opened Moves
  import Machine

  function ClosedWorld(w: World, reason: CloseReason, blame: Option<Machine.Blame>): World {
    var (m, effects) := Machine.Close(w.core.machine, reason, blame);
    w.(core := w.core.(machine := m, writer := w.core.writer.(frames := [], used := 0)),
       trace := w.trace + Visible(effects))
  }

  // --------------------------------------------------------------- the effects of closing

  function RecordFarewell(epoch: Epoch, reason: CloseReason, blame: Option<Machine.Blame>, r: Record): seq<Effect> {
    [CancelDeadline(epoch, r.id)]
    + (if r.phase.Terminal? then []
       else [PublishOutcome(epoch, r.id, Failed(Machine.ClosedFailure(reason, blame, r), r.delivery))])
  }

  lemma VisibleRecord(epoch: Epoch, reason: CloseReason, blame: Option<Machine.Blame>, r: Record)
    ensures Visible(Machine.RecordCloseEffects(epoch, reason, blame, r)) == RecordFarewell(epoch, reason, blame, r)
  {
    var cancel, discard := CancelDeadline(epoch, r.id), DiscardWrite(epoch, r.effect, r.id);
    var publish := PublishOutcome(epoch, r.id, Failed(Machine.ClosedFailure(reason, blame, r), r.delivery));
    var middle: seq<Effect> := if r.writeHeld then [discard] else [];
    var last: seq<Effect> := if r.phase.Terminal? then [] else [publish];
    assert Machine.RecordCloseEffects(epoch, reason, blame, r) == [cancel] + middle + last;
    VisibleConcat([cancel] + middle, last);
    VisibleConcat([cancel], middle);
    VisibleOne(cancel);
    VisibleOne(discard);
    VisibleOne(publish);
  }

  /** Closing announces each pending operation once: an outcome for the unfinished, and only
      a released deadline for a tombstone. */
  lemma {:induction false} ClosingOutcomes(
    epoch: Epoch, reason: CloseReason, blame: Option<Machine.Blame>, pending: seq<Record>)
    ensures OutcomeIds(Visible(Machine.CloseEffects(epoch, reason, blame, pending))) == ActiveBag(pending)
  {
    hide OutcomeIds, Visible, Machine.CloseEffects, ActiveBag, RecordFarewell, ActiveOne;
    if pending == [] {
      NothingCloses(epoch, reason, blame);
    } else {
      var front, r := pending[..|pending| - 1], pending[|pending| - 1];
      ClosingOutcomes(epoch, reason, blame, front);
      ClosingStep(epoch, reason, blame, front, r);
      ActiveConcat(front, [r]);
      ActiveSingle(r);
      assert front + [r] == pending;
      var before := Visible(Machine.CloseEffects(epoch, reason, blame, front));
      OutcomeConcat(before, RecordFarewell(epoch, reason, blame, r));
      FarewellOutcome(epoch, reason, blame, r);
    }
  }

  lemma NothingCloses(epoch: Epoch, reason: CloseReason, blame: Option<Machine.Blame>)
    ensures OutcomeIds(Visible(Machine.CloseEffects(epoch, reason, blame, []))) == ActiveBag([]) == multiset{}
  {
  }

  lemma FarewellOutcome(epoch: Epoch, reason: CloseReason, blame: Option<Machine.Blame>, r: Record)
    ensures OutcomeIds(RecordFarewell(epoch, reason, blame, r)) == ActiveOne(r)
  {
    hide OutcomeIds;
    var publish := PublishOutcome(epoch, r.id, Failed(Machine.ClosedFailure(reason, blame, r), r.delivery));
    OutcomeSingle(CancelDeadline(epoch, r.id));
    OutcomeSingle(publish);
    OutcomeConcat([CancelDeadline(epoch, r.id)], [publish]);
    assert r.phase.Terminal? ==> RecordFarewell(epoch, reason, blame, r) == [CancelDeadline(epoch, r.id)];
    assert !r.phase.Terminal? ==> RecordFarewell(epoch, reason, blame, r) == [CancelDeadline(epoch, r.id)] + [publish];
  }

  lemma ClosingStep(epoch: Epoch, reason: CloseReason, blame: Option<Machine.Blame>, front: seq<Record>, r: Record)
    ensures Visible(Machine.CloseEffects(epoch, reason, blame, front + [r]))
         == Visible(Machine.CloseEffects(epoch, reason, blame, front)) + RecordFarewell(epoch, reason, blame, r)
  {
    hide Visible, Machine.RecordCloseEffects;
    var pending := front + [r];
    assert pending[..|pending| - 1] == front && pending[|pending| - 1] == r;
    VisibleConcat(Machine.CloseEffects(epoch, reason, blame, front), Machine.RecordCloseEffects(epoch, reason, blame, r));
    VisibleRecord(epoch, reason, blame, r);
  }

  /** Everything the history knows about a record's bytes is what the record says. */
  ghost predicate Known(r: Record, commits: seq<Commitment>) {
    forall c :: 0 <= c < |commits| && commits[c].id == r.id ==> (commits[c].touched <==> r.delivery.PossiblySent?)
  }

  /** Effects that answer nothing, announce no closure, and are right about delivery. */
  ghost predicate Failing(effects: seq<Effect>, commits: seq<Commitment>) {
    forall j :: 0 <= j < |effects| ==>
      Truthful(effects[j], commits) && !IsReply(effects[j]) && !effects[j].CloseEpoch?
  }

  lemma {:induction false} ClosingTruthful(
    epoch: Epoch, reason: CloseReason, blame: Option<Machine.Blame>, pending: seq<Record>, commits: seq<Commitment>)
    requires forall i :: 0 <= i < |pending| ==> Known(pending[i], commits)
    ensures Failing(Visible(Machine.CloseEffects(epoch, reason, blame, pending)), commits)
  {
    if pending != [] {
      var front, r := pending[..|pending| - 1], pending[|pending| - 1];
      ClosingTruthful(epoch, reason, blame, front, commits);
      ClosingStep(epoch, reason, blame, front, r);
      assert front + [r] == pending;
      assert Known(r, commits);
      var last := RecordFarewell(epoch, reason, blame, r);
      assert Failing(last, commits);
    }
  }

  // --------------------------------------------------------------- releasing everything

  lemma {:induction false} EveryReleaseBalanced(
    l: LedgerState, before: seq<Claim>, pending: seq<Record>, after: seq<Claim>)
    requires Balanced(l, before + RecordClaims(pending) + after)
    ensures Balanced(Machine.ReleaseEach(l, pending), before + after)
    ensures Machine.ReleaseEach(l, pending).limits == l.limits
  {
    hide Balanced, Release;
    if pending == [] {
      assert before + RecordClaims(pending) + after == before + after;
    } else {
      var front, r := pending[..|pending| - 1], pending[|pending| - 1];
      var claim := Claim(r.reservation, r.writeHeld, false);
      assert RecordClaims(pending) == RecordClaims(front) + [claim];
      assert before + RecordClaims(pending) + after == before + RecordClaims(front) + ([claim] + after);
      EveryReleaseBalanced(l, before, front, [claim] + after);
      var left := before + ([claim] + after);
      assert left[|before|] == claim && RemoveAt(left, |before|) == before + after;
      ReleaseBalanced(Machine.ReleaseEach(l, front), left, |before|);
      KeepsLimits(Machine.ReleaseEach(l, front), r.reservation, r.writeHeld, false);
    }
  }

  lemma KeepsLimits(l: LedgerState, r: Reservation, held: bool, permit: bool)
    ensures Release(l, r, held, permit).limits == l.limits
  {
  }

  // --------------------------------------------------------------- what closing keeps

  lemma KeepsAccounts(w: World, reason: CloseReason, blame: Option<Machine.Blame>)
    requires Accounted(w) && w.core.machine.phase.Live?
    ensures Accounted(ClosedWorld(w, reason, blame))
  {
    hide Balanced, Machine.ReleaseEach, Visible, Machine.CloseEffects, PermitClaims, RecordClaims;
    var m := w.core.machine;
    assert Claims(w.permits, m.pending) == PermitClaims(w.permits) + RecordClaims(m.pending) + [];
    EveryReleaseBalanced(m.ledger, PermitClaims(w.permits), m.pending, []);
    assert PermitClaims(w.permits) + [] == PermitClaims(w.permits) + RecordClaims([]);
    NothingRetained();
  }

  lemma NothingRetained()
    ensures RetainedSum([]) == 0
  {
  }

  lemma KeepsStructure(w: World, g: Ghosts, slack: Slack, reason: CloseReason, blame: Option<Machine.Blame>)
    requires Structured(w, g, slack) && w.core.machine.phase.Live?
    ensures Structured(ClosedWorld(w, reason, blame), g.(order := []), Tight)
  {
    hide Machine.ReleaseEach, Visible, Machine.CloseEffects;
  }

  lemma KeepsConservation(w: World, reason: CloseReason, blame: Option<Machine.Blame>)
    requires Conserved(w) && w.core.machine.phase.Live?
    ensures Conserved(ClosedWorld(w, reason, blame))
  {
    hide OutcomeIds, ActiveBag, Visible, Machine.CloseEffects, Machine.ReleaseEach;
    var m := w.core.machine;
    var close, rest := CloseEpoch(m.epoch, reason), Machine.CloseEffects(m.epoch, reason, blame, m.pending);
    VisibleConcat([close], rest);
    VisibleOne(close);
    ClosingOutcomes(m.epoch, reason, blame, m.pending);
    OutcomeConcat([close], Visible(rest));
    OutcomeSingle(close);
    OutcomeConcat(w.trace, [close] + Visible(rest));
    NoneActive();
  }

  lemma NoneActive()
    ensures ActiveBag([]) == multiset{}
  {
  }

  lemma AllKnown(w: World, g: Ghosts, slack: Slack)
    requires Structured(w, g, slack) && !slack.Loose? && Identified(w, g.delta)
    ensures forall i :: 0 <= i < |w.core.machine.pending| ==> Known(w.core.machine.pending[i], w.commits)
  {
    forall i | 0 <= i < |w.core.machine.pending| ensures Known(w.core.machine.pending[i], w.commits) {
      TouchedExactly(w, g, slack, i);
    }
  }

  /** What closing adds to the trace. */
  function ClosingTrace(m: Machine.MachineState, reason: CloseReason, blame: Option<Machine.Blame>): seq<Effect> {
    [CloseEpoch(m.epoch, reason)] + Visible(Machine.CloseEffects(m.epoch, reason, blame, m.pending))
  }

  lemma ClosedTrace(w: World, reason: CloseReason, blame: Option<Machine.Blame>)
    requires w.core.machine.phase.Live?
    ensures ClosedWorld(w, reason, blame).trace == w.trace + ClosingTrace(w.core.machine, reason, blame)
  {
    hide Visible, Machine.CloseEffects, Machine.ReleaseEach;
    var m := w.core.machine;
    VisibleConcat([CloseEpoch(m.epoch, reason)], Machine.CloseEffects(m.epoch, reason, blame, m.pending));
    VisibleOne(CloseEpoch(m.epoch, reason));
  }

  lemma ClosingSpeaks(
    m: Machine.MachineState, reason: CloseReason, blame: Option<Machine.Blame>, commits: seq<Commitment>)
    requires forall i :: 0 <= i < |m.pending| ==> Known(m.pending[i], commits)
    ensures var more := ClosingTrace(m, reason, blame);
      forall j :: 0 <= j < |more| ==> Truthful(more[j], commits) && !IsReply(more[j])
    ensures Closures(ClosingTrace(m, reason, blame)) == 1
  {
    hide Known, Visible, Machine.CloseEffects, Closures;
    var close, rest := CloseEpoch(m.epoch, reason), Visible(Machine.CloseEffects(m.epoch, reason, blame, m.pending));
    ClosingTruthful(m.epoch, reason, blame, m.pending, commits);
    CloseTruthful(close, commits);
    var more := [close] + rest;
    forall j | 0 <= j < |more| ensures Truthful(more[j], commits) && !IsReply(more[j]) {
      if j > 0 { assert more[j] == rest[j - 1]; }
    }
    ClosuresConcat([close], rest);
    NoClosures(rest);
    OneClosure(close);
  }

  lemma KeepsTrace(w: World, g: Ghosts, reason: CloseReason, blame: Option<Machine.Blame>)
    requires forall i :: 0 <= i < |w.core.machine.pending| ==> Known(w.core.machine.pending[i], w.commits)
    requires Certain(w.trace, w.recovered, w.commits) && Answered(w.trace, w.commits, g.order)
    requires Phased(w) && w.core.machine.phase.Live?
    ensures Certain(ClosedWorld(w, reason, blame).trace, w.recovered, w.commits)
    ensures Answered(ClosedWorld(w, reason, blame).trace, w.commits, [])
    ensures Phased(ClosedWorld(w, reason, blame))
  {
    hide Certain, Answered, Visible, Machine.CloseEffects, Machine.ReleaseEach, Known, Truthful, Closures, IsReply;
    var more := ClosingTrace(w.core.machine, reason, blame);
    ClosedTrace(w, reason, blame);
    ClosingSpeaks(w.core.machine, reason, blame, w.commits);
    CertainExtends(w.trace, more, w.recovered, w.commits);
    AnsweredExtends(w.trace, more, w.commits, g.order, []);
    ClosuresConcat(w.trace, more);
  }

  lemma CloseTruthful(e: Effect, commits: seq<Commitment>)
    requires e.CloseEpoch?
    ensures Truthful(e, commits)
  {
  }

  lemma OneClosure(e: Effect)
    requires e.CloseEpoch?
    ensures Closures([e]) == 1
  {
    assert [e][..0] == [];
  }

  /** Closing keeps every fact of a healthy owner and leaves nothing pending. */
  lemma ClosureKeeps(w: World, g: Ghosts, slack: Slack, reason: CloseReason, blame: Option<Machine.Blame>)
    requires Sound(w, g, slack) && !slack.Loose? && w.core.machine.phase.Live?
    ensures Sound(ClosedWorld(w, reason, blame), g.(order := []), Tight)
    ensures Busy(ClosedWorld(w, reason, blame))
  {
    hide Identified, Structured, Accounted, Certain, Answered, Conserved, Flatten, Known, Visible,
      Machine.CloseEffects, Machine.ReleaseEach;
    KeepsAccounts(w, reason, blame);
    KeepsStructure(w, g, slack, reason, blame);
    KeepsConservation(w, reason, blame);
    AllKnown(w, g, slack);
    KeepsTrace(w, g, reason, blame);
    ClosedIdentities(w, g, reason, blame);
  }

  lemma ClosedIdentities(w: World, g: Ghosts, reason: CloseReason, blame: Option<Machine.Blame>)
    requires Identified(w, g.delta)
    ensures Identified(ClosedWorld(w, reason, blame), g.delta)
  {
    hide Visible, Machine.CloseEffects, Machine.ReleaseEach;
  }

  /** What every removing step does last. */
  function AfterDrain(w: World): World {
    if w.core.machine.gate.Draining? && w.core.machine.pending == [] then ClosedWorld(w, CloseReason.Drained, None) else w
  }

  function DrainedGhosts(w: World, g: Ghosts): Ghosts {
    if w.core.machine.gate.Draining? && w.core.machine.pending == [] then g.(order := []) else g
  }

  lemma DrainKeeps(w: World, g: Ghosts)
    requires Sound(w, g, Tight)
    ensures Sound(AfterDrain(w), DrainedGhosts(w, g), Tight)
    ensures Busy(AfterDrain(w))
  {
    hide Identified, Structured, Accounted, Recorded;
    if w.core.machine.gate.Draining? && w.core.machine.pending == [] {
      ClosureKeeps(w, g, Tight, CloseReason.Drained, None);
    }
  }
}
