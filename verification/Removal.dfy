/** One record leaves the policy with whatever it still held: cancellation or deadline before the
    first byte, a matched reply, or a completed write that needs none. */
module Removal {
  import opened Primitives
  import opened KeySet
  import opened Ledger
  import opened Operations
  import opened Writer
  import opened Core
  import opened World
  import opened Moves
  import Machine

  function Farewell(epoch: Epoch, r: Record, outcome: OperationOutcome): seq<Effect> {
    [CancelDeadline(epoch, r.id)]
    + (if r.phase.Terminal? then [] else [PublishOutcome(epoch, r.id, outcome)])
  }

  /** The world after the record at `i` left with `outcome`. */
  function Removed(w: World, i: nat, outcome: OperationOutcome): World
    requires i < |w.core.machine.pending| && |w.core.writer.frames| <= |w.core.machine.pending|
  {
    var m := w.core.machine;
    var frames := FramesWithout(m.pending, w.core.writer.frames, i);
    w.(core := w.core.(machine := Machine.Without(m, i),
                       writer := w.core.writer.(frames := frames, used := RetainedSum(frames))),
       trace := w.trace + Farewell(m.epoch, m.pending[i], outcome))
  }

  function GhostsWithout(g: Ghosts, w: World, i: nat): Ghosts
    requires i < |w.core.machine.pending| && |w.core.writer.frames| <= |w.core.machine.pending| == |g.order|
    requires forall a :: 0 <= a < |g.order| ==> g.order[a] < |w.commits|
  {
    var frames := FramesWithout(w.core.machine.pending, w.core.writer.frames, i);
    g.(order := RemoveAt(g.order, i),
       cut := Cut(RemoveAt(w.core.machine.pending, i), frames, w.commits, RemoveAt(g.order, i)))
  }

  /** A record may leave unsent, written out in front of the queue, or at the head with its reply. */
  ghost predicate Removable(w: World, slack: Slack, i: nat, outcome: OperationOutcome) {
    var m := w.core.machine;
    var k := WrittenCount(m.pending, w.core.writer.frames);
    && i < |m.pending| && m.phase.Live? && w.core.poisoned.None?
    && (if slack.Full? then i == k && w.core.writer.frames != []
        else slack.Tight? && (m.pending[i].delivery.NotSent? || i < k))
    && (if outcome.Reply? then i == 0 && !m.pending[0].writeHeld
        else OutcomeDelivery(outcome) == Some(m.pending[i].delivery))
  }

  lemma KeepsIdentities(w: World, g: Ghosts, i: nat, outcome: OperationOutcome)
    requires i < |w.core.machine.pending| && |w.core.writer.frames| <= |w.core.machine.pending|
    requires Identified(w, g.delta)
    ensures Identified(Removed(w, i, outcome), g.delta)
  {
  }

  lemma KeepsStructure(w: World, g: Ghosts, slack: Slack, i: nat, outcome: OperationOutcome)
    requires Structured(w, g, slack) && Removable(w, slack, i, outcome)
    ensures Structured(Removed(w, i, outcome), GhostsWithout(g, w, i), Tight)
  {
    hide Ordered, Shaped, Tracked, CutAt, Cut, RemoveAt, FramesWithout, Release, RetainedSum;
    var m, frames := w.core.machine, w.core.writer.frames;
    var k := WrittenCount(m.pending, frames);
    SameLengths(m.pending, frames, w.commits, g.order, slack);
    if k <= i { HeldUnsent(m.pending, frames, slack, i); }
    RemoveOrdered(m.pending, w.commits, g.order, i);
    RemoveShaped(m.pending, frames, slack, i);
    RemoveTracked(m.pending, frames, w.commits, g.order, i);
    RemoveCut(m.pending, frames, w.commits, g.order, slack, i);
  }

  lemma SameLengths(
    pending: seq<Record>, frames: seq<QueuedWrite>, commits: seq<Commitment>, order: seq<nat>, slack: Slack)
    requires Ordered(pending, commits, order) && Shaped(pending, frames, slack)
    ensures |order| == |pending| && |frames| <= |pending| && forall a :: 0 <= a < |order| ==> order[a] < |commits|
  {
    hide Holds, WrittenOut;
  }

  lemma HeldUnsent(pending: seq<Record>, frames: seq<QueuedWrite>, slack: Slack, i: nat)
    requires Shaped(pending, frames, slack) && !slack.Loose? && WrittenCount(pending, frames) <= i < |pending|
    ensures pending[i].delivery.NotSent? ==> frames[i - WrittenCount(pending, frames)].written == 0
  {
    var k := WrittenCount(pending, frames);
    assert Holds(pending[k + (i - k)], frames[i - k], SlackOf(slack, i - k));
  }

  lemma KeepsAccounts(w: World, i: nat, outcome: OperationOutcome)
    requires i < |w.core.machine.pending| && |w.core.writer.frames| <= |w.core.machine.pending|
    requires Accounted(w)
    ensures Accounted(Removed(w, i, outcome))
  {
    hide Balanced, Release, RetainedSum, PermitClaims, RecordClaims;
    var m := w.core.machine;
    RemoveClaims(w.permits, m.pending, i);
    ReleaseBalanced(m.ledger, Claims(w.permits, m.pending), |w.permits| + i);
    ReleaseLimits(m.ledger, m.pending[i].reservation, m.pending[i].writeHeld, false);
  }

  lemma ReleaseLimits(l: LedgerState, r: Reservation, held: bool, permit: bool)
    ensures Release(l, r, held, permit).limits == l.limits
  {
  }

  lemma KeepsRecords(w: World, g: Ghosts, slack: Slack, i: nat, outcome: OperationOutcome)
    requires Structured(w, g, slack) && Recorded(w, g) && Identified(w, g.delta) && Removable(w, slack, i, outcome)
    ensures Recorded(Removed(w, i, outcome), GhostsWithout(g, w, i))
  {
    ConservedWithout(w, i, outcome);
    CertainWithout(w, g, slack, i, outcome);
    AnsweredWithout(w, g, slack, i, outcome);
    hide Structured, Identified, Removable, Answered, Certain, Conserved, Flatten, Machine.Without, RetainedSum,
      Farewell, FramesWithout;
  }

  lemma CertainWithout(w: World, g: Ghosts, slack: Slack, i: nat, outcome: OperationOutcome)
    requires Structured(w, g, slack) && Recorded(w, g) && Identified(w, g.delta) && Removable(w, slack, i, outcome)
    ensures Certain(Removed(w, i, outcome).trace, w.recovered, w.commits)
  {
    var r := w.core.machine.pending[i];
    TouchedExactly(w, g, slack, i);
    FarewellTruthful(w, g.delta, g.order[i], r, outcome);
    CertainExtends(w.trace, Farewell(w.core.machine.epoch, r, outcome), w.recovered, w.commits);
  }

  lemma FarewellTruthful(w: World, delta: int, c: nat, r: Record, outcome: OperationOutcome)
    requires Identified(w, delta) && c < |w.commits| && w.commits[c].id == r.id
    requires w.commits[c].touched <==> r.delivery.PossiblySent?
    requires outcome.Reply? || OutcomeDelivery(outcome) == Some(r.delivery)
    ensures forall j :: 0 <= j < |Farewell(w.core.machine.epoch, r, outcome)| ==>
      Truthful(Farewell(w.core.machine.epoch, r, outcome)[j], w.commits)
  {
  }

  lemma ConservedWithout(w: World, i: nat, outcome: OperationOutcome)
    requires i < |w.core.machine.pending| && |w.core.writer.frames| <= |w.core.machine.pending|
    requires Conserved(w)
    ensures Conserved(Removed(w, i, outcome))
  {
    hide OutcomeIds, ActiveBag, Release, RetainedSum;
    var m := w.core.machine;
    var r := m.pending[i];
    var last: seq<Effect> := if r.phase.Terminal? then [] else [PublishOutcome(m.epoch, r.id, outcome)];
    ActiveAt(m.pending, i, r);
    OutcomeConcat(w.trace, Farewell(m.epoch, r, outcome));
    OutcomeConcat([CancelDeadline(m.epoch, r.id)], last);
    OutcomeSingle(CancelDeadline(m.epoch, r.id));
    OutcomeSingle(PublishOutcome(m.epoch, r.id, outcome));
    OutcomeNone();
  }

  lemma OutcomeNone()
    ensures OutcomeIds([]) == multiset{}
  {
  }

  lemma AnsweredWithout(w: World, g: Ghosts, slack: Slack, i: nat, outcome: OperationOutcome)
    requires Structured(w, g, slack) && Recorded(w, g) && Identified(w, g.delta) && Removable(w, slack, i, outcome)
    ensures Answered(Removed(w, i, outcome).trace, w.commits, RemoveAt(g.order, i))
  {
    hide Release, RetainedSum, Answered, Certain, Conserved, Flatten, Shaped, Tracked, CutAt, Cut, Machine.Without, RemoveAt;
    var m, frames := w.core.machine, w.core.writer.frames;
    var r, order := m.pending[i], g.order;
    RemovedMembers(order, i);
    if outcome.Reply? && !r.phase.Terminal? {
      FrontIsWhole(w, g, slack);
      var cancel, answer := [CancelDeadline(m.epoch, r.id)], PublishOutcome(m.epoch, r.id, outcome);
      AnsweredExtends(w.trace, cancel, w.commits, order, order);
      AnsweredReply(w.trace + cancel, answer, w.commits, order);
      assert w.trace + cancel + [answer] == w.trace + Farewell(m.epoch, r, outcome);
    } else {
      AnsweredExtends(w.trace, Farewell(m.epoch, r, outcome), w.commits, order, RemoveAt(order, i));
    }
  }

  lemma RemovedMembers<T>(s: seq<T>, i: nat)
    requires i < |s|
    ensures |RemoveAt(s, i)| == |s| - 1 && (i == 0 ==> RemoveAt(s, i) == s[1..])
    ensures forall j :: 0 <= j < |s| - 1 ==> RemoveAt(s, i)[j] in s
  {
    forall j | 0 <= j < |s| - 1 ensures RemoveAt(s, i)[j] in s {
      assert RemoveAt(s, i)[j] == s[if j < i then j else j + 1];
    }
  }

  /** A front record that gave up its frame wrote all of it. */
  lemma FrontIsWhole(w: World, g: Ghosts, slack: Slack)
    requires Structured(w, g, slack) && w.core.machine.pending != [] && !w.core.machine.pending[0].writeHeld
    ensures Whole(w.commits[g.order[0]]) && w.commits[g.order[0]].mode.ReplyExpected?
    ensures w.commits[g.order[0]].id == w.core.machine.pending[0].id
  {
    var pending, frames := w.core.machine.pending, w.core.writer.frames;
    HeldFrom(pending, frames, slack, 0);
    assert WrittenOut(pending[0]);
    assert Same(w.commits[g.order[0]], pending[0]);
  }

  lemma KeepsPhase(w: World, i: nat, outcome: OperationOutcome)
    requires i < |w.core.machine.pending| && |w.core.writer.frames| <= |w.core.machine.pending|
    requires Phased(w) && w.core.machine.phase.Live?
    ensures Phased(Removed(w, i, outcome))
  {
    hide Closures;
    var more := Farewell(w.core.machine.epoch, w.core.machine.pending[i], outcome);
    ClosuresConcat(w.trace, more);
    NoClosures(more);
  }

  /** Removing one record, with exactly the outcome its delivery allows, keeps every fact of a
      healthy owner. */
  lemma RemovalKeeps(w: World, g: Ghosts, slack: Slack, i: nat, outcome: OperationOutcome)
    requires Sound(w, g, slack) && Removable(w, slack, i, outcome)
    ensures Sound(Removed(w, i, outcome), GhostsWithout(g, w, i), Tight)
  {
    hide Identified, Structured, Accounted, Recorded, Phased;
    StructureCounts(w, g, slack);
    KeepsIdentities(w, g, i, outcome);
    KeepsStructure(w, g, slack, i, outcome);
    KeepsAccounts(w, i, outcome);
    KeepsRecords(w, g, slack, i, outcome);
    KeepsPhase(w, i, outcome);
  }

  lemma StructureCounts(w: World, g: Ghosts, slack: Slack)
    requires Structured(w, g, slack)
    ensures |w.core.writer.frames| <= |w.core.machine.pending| == |g.order|
    ensures forall a :: 0 <= a < |g.order| ==> g.order[a] < |w.commits|
  {
  }
}
