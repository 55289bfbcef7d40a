/** What the effects of one core step mean to its host: the deadline index follows the pending
    records, and publications are exactly the operations that stopped being active. */
module SlotEffects {
  import opened Primitives
  import opened KeySet
  import opened Ledger
  import opened Operations
  import opened Writer
  import opened Recovery
  import opened Core
  import opened World
  import opened Moves
  import opened Removal
  import opened Closure
  import opened Settlement
  import opened Agreement
  import opened Admission
  import opened Rescue
  import opened Reconciling
  import opened Steps
  import opened Reports
  import opened Runs
  import Progress
  import Machine

  type DeadlineIndex = map<OperationId, Moment>

  function IndexOne(index: DeadlineIndex, e: Effect): DeadlineIndex {
    match e
    case ScheduleDeadline(_, operation, deadline) => index[operation := deadline]
    case CancelDeadline(_, operation) => index - {operation}
    case _ => index
  }

  function IndexAfter(index: DeadlineIndex, effects: seq<Effect>): DeadlineIndex {
    if effects == [] then index
    else IndexOne(IndexAfter(index, effects[..|effects| - 1]), effects[|effects| - 1])
  }

  lemma {:induction false} IndexConcat(index: DeadlineIndex, a: seq<Effect>, b: seq<Effect>)
    ensures IndexAfter(index, a + b) == IndexAfter(IndexAfter(index, a), b)
  {
    if b == [] {
      assert a + b == a;
    } else {
      IndexConcat(index, a, b[..|b| - 1]);
      assert (a + b)[..|a + b| - 1] == a + b[..|b| - 1] && (a + b)[|a + b| - 1] == b[|b| - 1];
    }
  }

  lemma IndexSingle(index: DeadlineIndex, e: Effect)
    ensures IndexAfter(index, [e]) == IndexOne(index, e)
  {
    assert [e][..0] == [];
  }

  /** The index holds every pending record's original deadline, and nothing else. */
  ghost predicate Armed(index: DeadlineIndex, pending: seq<Record>) {
    && (forall i :: 0 <= i < |pending| ==> pending[i].id in index && index[pending[i].id] == pending[i].deadline)
    && (forall id :: id in index ==> exists i :: 0 <= i < |pending| && pending[i].id == id)
  }

  /** Nothing but what a host can interpret: this epoch's, no frame removal, no new deadline, and no
      reply but this one. */
  ghost predicate Plain(effects: seq<Effect>, payload: Option<Frame>, epoch: Epoch) {
    forall j :: 0 <= j < |effects| ==>
      !effects[j].DiscardWrite? && !effects[j].ScheduleDeadline? && effects[j].epoch == epoch
      && (IsReply(effects[j]) ==> payload == Some(effects[j].outcome.payload))
  }

  function ReplyOf(outcome: OperationOutcome): Option<Frame> {
    if outcome.Reply? then Some(outcome.payload) else None
  }

  lemma PlainConcat(a: seq<Effect>, b: seq<Effect>, payload: Option<Frame>, epoch: Epoch)
    requires Plain(a, payload, epoch) && Plain(b, payload, epoch)
    ensures Plain(a + b, payload, epoch)
  {
  }

  // --------------------------------------------------------------- one record leaves

  lemma FarewellIndex(index: DeadlineIndex, epoch: Epoch, r: Record, outcome: OperationOutcome)
    ensures IndexAfter(index, Farewell(epoch, r, outcome)) == index - {r.id}
    ensures Plain(Farewell(epoch, r, outcome), ReplyOf(outcome), epoch)
  {
    var cancel, publish := CancelDeadline(epoch, r.id), PublishOutcome(epoch, r.id, outcome);
    IndexSingle(index, cancel);
    IndexSingle(index - {r.id}, publish);
    if r.phase.Terminal? {
      assert Farewell(epoch, r, outcome) == [cancel];
    } else {
      assert Farewell(epoch, r, outcome) == [cancel] + [publish];
      IndexConcat(index, [cancel], [publish]);
    }
    hide IndexAfter;
  }

  /** Cancelling a removed record's deadline, whether or not its timer already fired, leaves the
      others' as they were. */
  lemma ArmedWithout(index: DeadlineIndex, pending: seq<Record>, i: nat)
    requires DistinctIds(pending) && i < |pending|
    requires Armed(index, pending) || Armed(index, RemoveAt(pending, i))
    ensures Armed(index - {pending[i].id}, RemoveAt(pending, i))
  {
    var rest, left := RemoveAt(pending, i), index - {pending[i].id};
    forall id | id in left ensures exists j :: 0 <= j < |rest| && rest[j].id == id {
      if Armed(index, pending) {
        var j :| 0 <= j < |pending| && pending[j].id == id;
        assert rest[if j < i then j else j - 1].id == id;
      }
    }
  }

  // --------------------------------------------------------------- everything leaves

  lemma PlainNone(epoch: Epoch)
    ensures Plain([], None, epoch)
  {
  }

  lemma FailedFarewell(epoch: Epoch, reason: CloseReason, blame: Option<Machine.Blame>, r: Record)
    ensures RecordFarewell(epoch, reason, blame, r) == Farewell(epoch, r,
        Failed(Machine.ClosedFailure(reason, blame, r), r.delivery))
  {
  }

  lemma {:induction false} ClosingPlain(
    epoch: Epoch, reason: CloseReason, blame: Option<Machine.Blame>, pending: seq<Record>)
    ensures Plain(Visible(Machine.CloseEffects(epoch, reason, blame, pending)), None, epoch)
  {
    hide Visible, Machine.CloseEffects, IndexAfter, RecordFarewell, Farewell, Plain;
    PlainNone(epoch);
    if pending != [] {
      var front, r := pending[..|pending| - 1], pending[|pending| - 1];
      ClosingPlain(epoch, reason, blame, front);
      assert front + [r] == pending;
      ClosingStep(epoch, reason, blame, front, r);
      FailedFarewell(epoch, reason, blame, r);
      FarewellIndex(map[], epoch, r, Failed(Machine.ClosedFailure(reason, blame, r), r.delivery));
      PlainConcat(Visible(Machine.CloseEffects(epoch, reason, blame, front)),
        RecordFarewell(epoch, reason, blame, r), None, epoch);
    } else {
      assert Visible(Machine.CloseEffects(epoch, reason, blame, pending)) == [] by { NothingVisible(epoch, reason, blame); }
    }
  }

  lemma NothingVisible(epoch: Epoch, reason: CloseReason, blame: Option<Machine.Blame>)
    ensures Visible(Machine.CloseEffects(epoch, reason, blame, [])) == []
  {
  }

  lemma {:induction false} ClosingIndex(
    index: DeadlineIndex, epoch: Epoch, reason: CloseReason, blame: Option<Machine.Blame>, pending: seq<Record>)
    ensures forall id :: id in IndexAfter(index, Visible(Machine.CloseEffects(epoch, reason, blame, pending))) ==>
      id in index && forall i :: 0 <= i < |pending| ==> pending[i].id != id
  {
    if pending != [] {
      hide Visible, Machine.CloseEffects, IndexAfter, RecordFarewell, Farewell, Plain;
      var front, r := pending[..|pending| - 1], pending[|pending| - 1];
      var before := Visible(Machine.CloseEffects(epoch, reason, blame, front));
      ClosingIndex(index, epoch, reason, blame, front);
      assert front + [r] == pending;
      ClosingStep(epoch, reason, blame, front, r);
      FailedFarewell(epoch, reason, blame, r);
      IndexConcat(index, before, RecordFarewell(epoch, reason, blame, r));
      FarewellIndex(IndexAfter(index, before), epoch, r, Failed(Machine.ClosedFailure(reason, blame, r), r.delivery));
    }
  }

  lemma ClosedTracks(index: DeadlineIndex, w: World, reason: CloseReason, blame: Option<Machine.Blame>)
    requires w.core.machine.phase.Live?
    requires forall id :: id in index ==>
      exists i :: 0 <= i < |w.core.machine.pending| && w.core.machine.pending[i].id == id
    ensures Armed(IndexAfter(index, ClosingTrace(w.core.machine, reason, blame)), [])
    ensures Plain(ClosingTrace(w.core.machine, reason, blame), None, w.core.machine.epoch)
    ensures ClosedWorld(w, reason, blame).trace == w.trace + ClosingTrace(w.core.machine, reason, blame)
    ensures ClosedWorld(w, reason, blame).core.machine.pending == []
  {
    hide Visible, Machine.CloseEffects, Machine.ReleaseEach, IndexAfter;
    var m := w.core.machine;
    ClosedTrace(w, reason, blame);
    IndexConcat(index, [CloseEpoch(m.epoch, reason)], Visible(Machine.CloseEffects(m.epoch, reason, blame, m.pending)));
    IndexSingle(index, CloseEpoch(m.epoch, reason));
    ClosingIndex(index, m.epoch, reason, blame, m.pending);
    ClosingPlain(m.epoch, reason, blame, m.pending);
    PlainConcat([CloseEpoch(m.epoch, reason)],
      Visible(Machine.CloseEffects(m.epoch, reason, blame, m.pending)), None, m.epoch);
  }

  // --------------------------------------------------------------- a whole step

  /** The step from `w` to `after` returned these effects, and the index they leave is armed. */
  ghost predicate Tracks(index: DeadlineIndex, w: World, after: World, payload: Option<Frame>) {
    && w.trace <= after.trace
    && Armed(IndexAfter(index, after.trace[|w.trace|..]), after.core.machine.pending)
    && Plain(after.trace[|w.trace|..], payload, w.core.machine.epoch)
  }

  lemma TracksClosed(
    index: DeadlineIndex, w: World, reason: CloseReason, blame: Option<Machine.Blame>, payload: Option<Frame>)
    requires w.core.machine.phase.Live?
    requires forall id :: id in index ==>
      exists i :: 0 <= i < |w.core.machine.pending| && w.core.machine.pending[i].id == id
    ensures Tracks(index, w, ClosedWorld(w, reason, blame), payload)
  {
    hide ClosedWorld, ClosingTrace, IndexAfter, Armed;
    ClosedTracks(index, w, reason, blame);
    assert (w.trace + ClosingTrace(w.core.machine, reason,
      blame))[|w.trace|..] == ClosingTrace(w.core.machine, reason, blame);
  }

  lemma DrainEffects(w: World, index: DeadlineIndex)
    requires w.core.machine.gate.Draining? ==> w.core.machine.phase.Live?
    ensures w.trace <= AfterDrain(w).trace && AfterDrain(w).core.machine.pending == w.core.machine.pending
    ensures Plain(AfterDrain(w).trace[|w.trace|..], None, w.core.machine.epoch)
    ensures IndexAfter(index, AfterDrain(w).trace[|w.trace|..]) == index
  {
    if w.core.machine.gate.Draining? && w.core.machine.pending == [] {
      ClosedTrace(w, CloseReason.Drained, None);
      var close := CloseEpoch(w.core.machine.epoch, CloseReason.Drained);
      assert ClosingTrace(w.core.machine, CloseReason.Drained, None) == [close];
      assert (w.trace + [close])[|w.trace|..] == [close];
      IndexSingle(index, close);
    } else {
      assert AfterDrain(w).trace[|w.trace|..] == [];
    }
  }

  /** Two parts of one step. */
  lemma TracksThen(
    index: DeadlineIndex, w: World, bye: seq<Effect>, middle: World, after: World, payload: Option<Frame>)
    requires middle.trace == w.trace + bye && middle.trace <= after.trace
    requires Plain(bye, payload, w.core.machine.epoch)
    requires Plain(after.trace[|middle.trace|..], payload, w.core.machine.epoch)
    requires Armed(IndexAfter(IndexAfter(index, bye), after.trace[|middle.trace|..]), after.core.machine.pending)
    ensures Tracks(index, w, after, payload)
  {
    hide IndexAfter, Armed;
    var more := after.trace[|middle.trace|..];
    IndexConcat(index, bye, more);
    PlainConcat(bye, more, payload, w.core.machine.epoch);
    assert after.trace == middle.trace + more == w.trace + (bye + more);
    assert after.trace[|w.trace|..] == bye + more;
  }

  lemma PlainWeaken(effects: seq<Effect>, payload: Option<Frame>, epoch: Epoch)
    requires Plain(effects, None, epoch)
    ensures Plain(effects, payload, epoch)
  {
  }

  lemma TracksRemoved(index: DeadlineIndex, w: World, g: Ghosts, slack: Slack, i: nat, outcome: OperationOutcome)
    requires Sound(w, g, slack) && Removable(w, slack, i, outcome) && |w.core.writer.frames| <= |w.core.machine.pending|
    requires i < |w.core.machine.pending|
    requires Armed(index, w.core.machine.pending) || Armed(index, RemoveAt(w.core.machine.pending, i))
    ensures Tracks(index, w, AfterDrain(Removed(w, i, outcome)), ReplyOf(outcome))
  {
    hide Sound, Removable, Removed, AfterDrain, IndexAfter, Armed, Farewell, DistinctIds, Plain, Machine.Without,
      WriterWithout;
    var m := w.core.machine;
    var removed := Removed(w, i, outcome);
    var bye := Farewell(m.epoch, m.pending[i], outcome);
    SoundDistinct(w, g, slack);
    RemovedDrains(w, g, slack, i, outcome);
    RemovedCore(w, i, outcome);
    WithoutPending(m, i);
    ArmedWithout(index, m.pending, i);
    FarewellIndex(index, m.epoch, m.pending[i], outcome);
    DrainEffects(removed, index - {m.pending[i].id});
    PlainWeaken(AfterDrain(removed).trace[|removed.trace|..], ReplyOf(outcome), m.epoch);
    TracksThen(index, w, bye, removed, AfterDrain(removed), ReplyOf(outcome));
  }

  lemma SoundDistinct(w: World, g: Ghosts, slack: Slack)
    requires Sound(w, g, slack)
    ensures DistinctIds(w.core.machine.pending)
  {
    PendingDistinct(w, g);
  }

  lemma WithoutPending(m: Machine.MachineState, i: nat)
    requires i < |m.pending|
    ensures Machine.Without(m, i).pending == RemoveAt(m.pending, i) && Machine.Without(m, i).epoch == m.epoch
  {
  }

  lemma TracksSame(index: DeadlineIndex, w: World, after: World, payload: Option<Frame>)
    requires Armed(index, w.core.machine.pending) && after.trace == w.trace
    requires after.core.machine.pending == w.core.machine.pending
    ensures Tracks(index, w, after, payload)
  {
    assert after.trace[|w.trace|..] == [];
  }

  lemma TracksTombstone(index: DeadlineIndex, w: World, i: nat)
    requires Armed(index, w.core.machine.pending) && i < |w.core.machine.pending|
    ensures Tracks(index, w, Tombstoned(w, i), None)
  {
    var m := w.core.machine;
    var e := PublishOutcome(m.epoch, m.pending[i].id, Cancelled(PossiblySent));
    var after := Tombstoned(w, i);
    assert after.trace[|w.trace|..] == [e];
    IndexSingle(index, e);
    forall id | id in index
      ensures exists j :: 0 <= j < |after.core.machine.pending| && after.core.machine.pending[j].id == id {
      var j :| 0 <= j < |m.pending| && m.pending[j].id == id;
      assert after.core.machine.pending[j].id == id;
    }
  }

  // --------------------------------------------------------------- each action

  lemma ArmedIds(index: DeadlineIndex, pending: seq<Record>)
    requires Armed(index, pending)
    ensures forall id :: id in index ==> exists i :: 0 <= i < |pending| && pending[i].id == id
  {
  }

  lemma CancelTracks(index: DeadlineIndex, w: World, g: Ghosts, id: OperationId)
    requires Sound(w, g, Tight) && Armed(index, w.core.machine.pending)
    requires |w.core.writer.frames| <= |w.core.machine.pending|
    ensures Tracks(index, w, CancelledWorld(w, id), None)
  {
    hide Sound, Armed, Tracks, Removable, Removed, AfterDrain, Tombstoned;
    TracksSame(index, w, w, None);
    var at := IndexOf(w.core.machine.pending, id);
    if at.Some? && !w.core.machine.pending[at.value].phase.Terminal? {
      if w.core.machine.pending[at.value].delivery.NotSent? {
        UnsentRemovable(w, g, at.value, Cancelled(NotSent));
        TracksRemoved(index, w, g, Tight, at.value, Cancelled(NotSent));
      } else {
        TracksTombstone(index, w, at.value);
      }
    }
  }

  /** The timer of the operation already fired; afterwards the index is exact again. */
  lemma DeadlineTracks(index: DeadlineIndex, w: World, g: Ghosts, i: nat, now: Moment)
    requires Sound(w, g, Tight) && |w.core.writer.frames| <= |w.core.machine.pending|
    requires i < |w.core.machine.pending| && IndexOf(w.core.machine.pending, w.core.machine.pending[i].id) == Some(i)
    requires Armed(index, RemoveAt(w.core.machine.pending, i)) && w.core.machine.pending[i].deadline <= now
    ensures Tracks(index, w, ElapsedWorld(w, w.core.machine.pending[i].id, now), None)
  {
    hide Sound, Armed, Tracks, Removable, Removed, AfterDrain, ClosedWorld, IndexOf;
    var m := w.core.machine;
    var r := m.pending[i];
    SoundCounts(w, g);
    if r.delivery.PossiblySent? {
      OthersIds(index, m.pending, i);
      TracksClosed(index, w, DeadlineAfterPossibleSend, None, None);
    } else {
      var outcome := Failed(OperationFailure.DeadlineElapsed, NotSent);
      UnsentRemovable(w, g, i, outcome);
      TracksRemoved(index, w, g, Tight, i, outcome);
    }
  }

  lemma OthersIds(index: DeadlineIndex, pending: seq<Record>, i: nat)
    requires i < |pending| && Armed(index, RemoveAt(pending, i))
    ensures forall id :: id in index ==> exists j :: 0 <= j < |pending| && pending[j].id == id
  {
    forall id | id in index
      ensures exists j :: 0 <= j < |pending| && pending[j].id == id {
      var j :| 0 <= j < |pending| - 1 && RemoveAt(pending, i)[j].id == id;
      assert pending[if j < i then j else j + 1].id == id;
    }
  }

  lemma RestTracks(index: DeadlineIndex, w: World, g: Ghosts, input: Input)
    requires Sound(w, g, Tight) && Armed(index, w.core.machine.pending) && !input.Cancel? && !input.DeadlineReached?
    ensures Tracks(index, w, RestWorld(w, input), None)
  {
    hide Sound, Armed, Tracks, AfterDrain, ClosedWorld, Regated;
    var m := w.core.machine;
    ArmedIds(index, m.pending);
    TracksSame(index, w, w, None);
    match input
    case OpenAdmission(_) => TracksRegated(index, w, AdmissionGate.Open, Live);
    case ReplyMalformed(_) => if m.phase.Live? { TracksClosed(index, w, MalformedReply, None, None); }
    case CloseRequested(_, reason) => if m.phase.Live? { TracksClosed(index, w, reason, None, None); }
    case BeginDrain(_) => if m.phase.Live? { TracksDraining(index, w); }
    case EpochClosed(_) => TracksRegated(index, w, GateClosed, Closed);
  }

  lemma TracksRegated(index: DeadlineIndex, w: World, gate: AdmissionGate, phase: ConnectionPhase)
    requires Armed(index, w.core.machine.pending)
    ensures Tracks(index, w, Regated(w, gate, phase), None)
  {
    TracksSame(index, w, Regated(w, gate, phase), None);
  }

  lemma TracksDraining(index: DeadlineIndex, w: World)
    requires Armed(index, w.core.machine.pending) && w.core.machine.phase.Live?
    ensures Tracks(index, w, AfterDrain(Regated(w, Draining, Live)), None)
  {
    var draining := Regated(w, Draining, Live);
    DrainEffects(draining, index);
    hide AfterDrain, Armed, IndexAfter;
  }

  lemma ReplyTracks(index: DeadlineIndex, w: World, g: Ghosts, reply: InboundReply)
    requires Sound(w, g, Tight) && Armed(index, w.core.machine.pending)
    requires |w.core.writer.frames| <= |w.core.machine.pending|
    ensures Tracks(index, w, RepliedWorld(w, reply), Some(reply.payload))
  {
    hide Sound, Armed, Tracks, Removable, Removed, AfterDrain, ClosedWorld;
    var m := w.core.machine;
    ArmedIds(index, m.pending);
    TracksSame(index, w, w, Some(reply.payload));
    if reply.epoch == m.epoch && m.phase.Live? {
      TracksClosed(index, w, UnexpectedReply, None, Some(reply.payload));
      if m.pending != [] && Machine.AwaitsReply(m.pending[0]) {
        var expected := m.pending[0].reservation.key;
        TracksClosed(index, w, MatchKeyMismatch(expected, reply.key),
                     Some(Machine.Blame(m.pending[0].id, ReplyKeyMismatch(expected, reply.key))), Some(reply.payload));
        AnsweredRemovable(w, g, Reply(reply.payload));
        TracksRemoved(index, w, g, Tight, 0, Reply(reply.payload));
      }
    }
  }

  lemma ArmedSame(index: DeadlineIndex, pending: seq<Record>, after: seq<Record>)
    requires Armed(index, pending) && |after| == |pending|
    requires forall i :: 0 <= i < |pending| ==> after[i].id == pending[i].id && after[i].deadline == pending[i].deadline
    ensures Armed(index, after)
  {
    forall id | id in index ensures exists i :: 0 <= i < |after| && after[i].id == id {
      var i :| 0 <= i < |pending| && pending[i].id == id;
      assert after[i].id == id;
    }
  }

  lemma ProgressedArmed(index: DeadlineIndex, w: World, count: nat)
    requires Armed(index, w.core.machine.pending) && 0 < |w.core.writer.frames| <= |w.core.machine.pending|
    ensures var moved := Progress.Progressed(w, count);
      Armed(index, moved.core.machine.pending) && moved.trace == w.trace && moved.core.machine.epoch == w.core.machine.epoch
      && |moved.core.writer.frames| <= |moved.core.machine.pending|
  {
    ArmedSame(index, w.core.machine.pending, Progress.Progressed(w, count).core.machine.pending);
  }

  lemma WrittenTracks(index: DeadlineIndex, w: World)
    requires Armed(index, w.core.machine.pending) && 0 < |w.core.writer.frames| <= |w.core.machine.pending|
    ensures Tracks(index, w, WrittenWorld(w), None)
  {
    ArmedSame(index, w.core.machine.pending, WrittenWorld(w).core.machine.pending);
    assert WrittenWorld(w).trace[|w.trace|..] == [];
  }

  lemma AdvanceTracks(index: DeadlineIndex, w: World, g: Ghosts, k: nat, count: nat)
    requires Sound(w, g, Tight) && Armed(index, w.core.machine.pending)
    requires w.core.writer.frames != [] && |w.core.writer.frames| <= |w.core.machine.pending|
    requires k == WrittenCount(w.core.machine.pending, w.core.writer.frames) < |w.core.machine.pending|
    requires w.core.writer.frames[0].written + count <= w.core.writer.frames[0].wire
    ensures Tracks(index, w, ReportedWorld(w, count), None)
  {
    hide Sound, Armed, Tracks, Removable, Removed, AfterDrain, WrittenWorld, ReportedWorld, Progress.Progressed,
      CanRelease, Fronted;
    ReportedCases(w, k, count);
    ProgressedArmed(index, w, count);
    var moved := Progress.Progressed(w, count);
    if w.core.writer.frames[0].written + count != w.core.writer.frames[0].wire {
      TracksShift(index, w, moved, moved, None);
      TracksSame(index, moved, moved, None);
    } else {
      LastByte(w, g, count);
      if w.core.machine.pending[k].completion.ReplyExpected? {
        WrittenTracks(index, moved);
        TracksShift(index, w, moved, WrittenWorld(moved), None);
      } else {
        CompletedRemovable(moved, g);
        TracksRemoved(index, moved, g, Full, k, WriteDone(moved.core.machine.pending[k].delivery));
        TracksShift(index, w, moved, DoneWorld(w, k, count), None);
      }
    }
  }

  lemma TracksShift(index: DeadlineIndex, w: World, moved: World, after: World, payload: Option<Frame>)
    requires moved.trace == w.trace && moved.core.machine.epoch == w.core.machine.epoch
    ensures Tracks(index, moved, after, payload) ==> Tracks(index, w, after, payload)
  {
  }

  /** The committed record is scheduled at its own deadline. */
  lemma CommitTracks(index: DeadlineIndex, w: World, i: nat, frame: Frame)
    requires Armed(index, w.core.machine.pending) && i < |w.permits|
    requires forall j :: 0 <= j < |w.core.machine.pending| ==> w.core.machine.pending[j].id != w.permits[i].operation
    ensures var e := ScheduleDeadline(w.core.machine.epoch, w.permits[i].operation, w.permits[i].deadline);
      Committed(w, i, frame).trace == w.trace + [e]
      && Armed(IndexAfter(index, [e]), Committed(w, i, frame).core.machine.pending)
    ensures w.permits[i].operation !in index
  {
    var p := w.permits[i];
    var e := ScheduleDeadline(w.core.machine.epoch, p.operation, p.deadline);
    var pending, after := w.core.machine.pending, Committed(w, i, frame).core.machine.pending;
    IndexSingle(index, e);
    var next := index[p.operation := p.deadline];
    forall id | id in next ensures exists j :: 0 <= j < |after| && after[j].id == id {
      if id in index {
        var j :| 0 <= j < |pending| && pending[j].id == id;
        assert after[j].id == id;
      } else {
        assert after[|pending|].id == id;
      }
    }
    hide CommitPermit;
  }

  // --------------------------------------------------------------- publications

  /** Operations that stopped being active are exactly those published. */
  lemma PublicationsBalance(w: World, after: World)
    requires Conserved(w) && Conserved(after) && w.trace <= after.trace
    requires after.recovered == w.recovered && CommitIds(after.commits) == CommitIds(w.commits)
    ensures |OutcomeIds(after.trace[|w.trace|..])| + |ActiveBag(after.core.machine.pending)|
      == |ActiveBag(w.core.machine.pending)|
  {
    hide OutcomeIds, ActiveBag, RecoveredBag, CommitIds;
    assert after.trace == w.trace + after.trace[|w.trace|..];
    OutcomeConcat(w.trace, after.trace[|w.trace|..]);
    EqualBags(OutcomeIds(w.trace) + OutcomeIds(after.trace[|w.trace|..]), ActiveBag(after.core.machine.pending),
              OutcomeIds(w.trace), ActiveBag(w.core.machine.pending), RecoveredBag(w.recovered));
  }

  lemma EqualBags(a: multiset<OperationId>, b: multiset<OperationId>, c: multiset<OperationId>,
      d: multiset<OperationId>, r: multiset<OperationId>)
    requires a + b + r == c + d + r
    ensures |a| + |b| == |c| + |d|
  {
    assert |a + b + r| == |a| + |b| + |r|;
    assert |c + d + r| == |c| + |d| + |r|;
  }

  // --------------------------------------------------------------- closure

  /** The closure a host must carry out, if any. */
  function CloseReasonOf(effects: seq<Effect>): Option<CloseReason> {
    if effects == [] then None
    else if effects[|effects| - 1].CloseEpoch? then Some(effects[|effects| - 1].reason)
    else CloseReasonOf(effects[..|effects| - 1])
  }

  lemma {:induction false} CloseReasonConcat(a: seq<Effect>, b: seq<Effect>)
    ensures CloseReasonOf(a + b) == if CloseReasonOf(b).Some? then CloseReasonOf(b) else CloseReasonOf(a)
  {
    if b == [] {
      assert a + b == a;
    } else {
      CloseReasonConcat(a, b[..|b| - 1]);
      assert (a + b)[..|a + b| - 1] == a + b[..|b| - 1] && (a + b)[|a + b| - 1] == b[|b| - 1];
    }
  }

  lemma {:induction false} NoCloseReason(effects: seq<Effect>)
    requires forall j :: 0 <= j < |effects| ==> !effects[j].CloseEpoch?
    ensures CloseReasonOf(effects).None?
  {
    if effects != [] { NoCloseReason(effects[..|effects| - 1]); }
  }

  lemma {:induction false} ClosingSilent(
    epoch: Epoch, reason: CloseReason, blame: Option<Machine.Blame>, pending: seq<Record>)
    ensures CloseReasonOf(Visible(Machine.CloseEffects(epoch, reason, blame, pending))).None?
  {
    if pending != [] {
      hide Visible, Machine.CloseEffects, CloseReasonOf;
      var front, r := pending[..|pending| - 1], pending[|pending| - 1];
      ClosingSilent(epoch, reason, blame, front);
      assert front + [r] == pending;
      ClosingStep(epoch, reason, blame, front, r);
      CloseReasonConcat(Visible(Machine.CloseEffects(epoch, reason, blame, front)), RecordFarewell(epoch, reason, blame, r));
      NoCloseReason(RecordFarewell(epoch, reason, blame, r));
    } else {
      assert Visible(Machine.CloseEffects(epoch, reason, blame, pending)) == [];
    }
  }

  lemma ClosingReason(m: Machine.MachineState, reason: CloseReason, blame: Option<Machine.Blame>)
    ensures CloseReasonOf(ClosingTrace(m, reason, blame)) == Some(reason)
  {
    var close: seq<Effect> := [CloseEpoch(m.epoch, reason)];
    ClosingSilent(m.epoch, reason, blame, m.pending);
    assert CloseReasonOf(close) == Some(reason);
    hide Visible, Machine.CloseEffects, CloseReasonOf;
    CloseReasonConcat(close, Visible(Machine.CloseEffects(m.epoch, reason, blame, m.pending)));
  }

  /** A step either closes a live epoch and says so, or leaves phase and gate alone. */
  ghost predicate Shuts(w: World, after: World, drained: bool) {
    && w.trace <= after.trace
    && var reason := CloseReasonOf(after.trace[|w.trace|..]);
       var m, m' := w.core.machine, after.core.machine;
       if reason.None? then m'.phase == m.phase && m'.gate == m.gate
       else m.phase.Live? && m'.phase.Closing? && (reason.value.Drained? ==> drained)
  }

  lemma ClosedShuts(w: World, reason: CloseReason, blame: Option<Machine.Blame>)
    requires w.core.machine.phase.Live?
    ensures Shuts(w, ClosedWorld(w, reason, blame), reason.Drained?)
  {
    ClosedTrace(w, reason, blame);
    ClosingReason(w.core.machine, reason, blame);
    assert (w.trace + ClosingTrace(w.core.machine, reason,
      blame))[|w.trace|..] == ClosingTrace(w.core.machine, reason, blame);
    hide Machine.CloseEffects, Machine.ReleaseEach, Visible, CloseReasonOf, ClosingTrace;
  }

  lemma SameShuts(w: World, after: World, drained: bool)
    requires after.trace == w.trace
    requires after.core.machine.phase == w.core.machine.phase && after.core.machine.gate == w.core.machine.gate
    ensures Shuts(w, after, drained)
  {
    assert after.trace[|w.trace|..] == [];
  }

  lemma SaidShuts(w: World, after: World, more: seq<Effect>, drained: bool)
    requires after.trace == w.trace + more && forall j :: 0 <= j < |more| ==> !more[j].CloseEpoch?
    requires after.core.machine.phase == w.core.machine.phase && after.core.machine.gate == w.core.machine.gate
    ensures Shuts(w, after, drained)
  {
    NoCloseReason(more);
    assert after.trace[|w.trace|..] == more;
  }

  lemma ShutsThen(w: World, middle: World, after: World, drained: bool)
    requires Shuts(w, middle, false) && Shuts(middle, after, drained)
    requires middle.core.machine.phase == w.core.machine.phase
    ensures Shuts(w, after, drained)
  {
    var a, b := middle.trace[|w.trace|..], after.trace[|middle.trace|..];
    CloseReasonConcat(a, b);
    assert after.trace[|w.trace|..] == a + b;
  }

  lemma DrainShuts(w: World)
    requires w.core.machine.gate.Draining? ==> w.core.machine.phase.Live?
    ensures Shuts(w, AfterDrain(w), w.core.machine.gate.Draining?)
  {
    hide ClosedWorld;
    if w.core.machine.gate.Draining? && w.core.machine.pending == [] {
      ClosedShuts(w, CloseReason.Drained, None);
    } else {
      SameShuts(w, w, w.core.machine.gate.Draining?);
    }
  }

  lemma RemovedShuts(w: World, g: Ghosts, slack: Slack, i: nat, outcome: OperationOutcome)
    requires Sound(w, g, slack) && Removable(w, slack, i, outcome) && |w.core.writer.frames| <= |w.core.machine.pending|
    requires i < |w.core.machine.pending|
    ensures Shuts(w, AfterDrain(Removed(w, i, outcome)), w.core.machine.gate.Draining?)
  {
    hide Sound, Removable, Removed, AfterDrain, Farewell, Machine.Without, WriterWithout, Shuts;
    var m := w.core.machine;
    RemovedDrains(w, g, slack, i, outcome);
    RemovedCore(w, i, outcome);
    WithoutGate(m, i);
    var bye := Farewell(m.epoch, m.pending[i], outcome);
    FarewellOpen(m.epoch, m.pending[i], outcome);
    SaidShuts(w, Removed(w, i, outcome), bye, false);
    DrainShuts(Removed(w, i, outcome));
    ShutsThen(w, Removed(w, i, outcome), AfterDrain(Removed(w, i, outcome)), w.core.machine.gate.Draining?);
  }

  lemma WithoutGate(m: Machine.MachineState, i: nat)
    requires i < |m.pending|
    ensures Machine.Without(m, i).phase == m.phase && Machine.Without(m, i).gate == m.gate
  {
  }

  lemma FarewellOpen(epoch: Epoch, r: Record, outcome: OperationOutcome)
    ensures forall j :: 0 <= j < |Farewell(epoch, r, outcome)| ==> !Farewell(epoch, r, outcome)[j].CloseEpoch?
  {
  }

  lemma CancelShuts(w: World, g: Ghosts, id: OperationId)
    requires Sound(w, g, Tight) && |w.core.writer.frames| <= |w.core.machine.pending|
    ensures Shuts(w, CancelledWorld(w, id), w.core.machine.gate.Draining?)
  {
    hide Sound, Shuts, Removable, Removed, AfterDrain, Tombstoned;
    SameShuts(w, w, w.core.machine.gate.Draining?);
    var at := IndexOf(w.core.machine.pending, id);
    if at.Some? && !w.core.machine.pending[at.value].phase.Terminal? {
      if w.core.machine.pending[at.value].delivery.NotSent? {
        UnsentRemovable(w, g, at.value, Cancelled(NotSent));
        RemovedShuts(w, g, Tight, at.value, Cancelled(NotSent));
      } else {
        TombShuts(w, at.value);
      }
    }
  }

  lemma TombShuts(w: World, i: nat)
    requires i < |w.core.machine.pending|
    ensures Shuts(w, Tombstoned(w, i), w.core.machine.gate.Draining?)
  {
    var e := PublishOutcome(w.core.machine.epoch, w.core.machine.pending[i].id, Cancelled(PossiblySent));
    SaidShuts(w, Tombstoned(w, i), [e], w.core.machine.gate.Draining?);
  }

  lemma DeadlineShuts(w: World, g: Ghosts, id: OperationId, now: Moment)
    requires Sound(w, g, Tight) && |w.core.writer.frames| <= |w.core.machine.pending|
    ensures Shuts(w, ElapsedWorld(w, id, now), w.core.machine.gate.Draining?)
  {
    hide Sound, Shuts, Removable, Removed, AfterDrain, ClosedWorld;
    SoundCounts(w, g);
    SameShuts(w, w, w.core.machine.gate.Draining?);
    var at := IndexOf(w.core.machine.pending, id);
    if at.Some? {
      var r := w.core.machine.pending[at.value];
      if now < r.deadline {
        var e := ScheduleDeadline(w.core.machine.epoch, id, r.deadline);
        SaidShuts(w, w.(trace := w.trace + [e]), [e], w.core.machine.gate.Draining?);
      } else if r.delivery.PossiblySent? {
        ClosedShuts(w, DeadlineAfterPossibleSend, None);
        ShutsWeaken(w, ClosedWorld(w, DeadlineAfterPossibleSend, None), w.core.machine.gate.Draining?);
      } else {
        var outcome := Failed(OperationFailure.DeadlineElapsed, NotSent);
        UnsentRemovable(w, g, at.value, outcome);
        RemovedShuts(w, g, Tight, at.value, outcome);
      }
    }
  }

  lemma ShutsWeaken(w: World, after: World, drained: bool)
    requires Shuts(w, after, false)
    ensures Shuts(w, after, drained)
  {
  }

  lemma ReplyShuts(w: World, g: Ghosts, reply: InboundReply)
    requires Sound(w, g, Tight) && |w.core.writer.frames| <= |w.core.machine.pending|
    ensures Shuts(w, RepliedWorld(w, reply), w.core.machine.gate.Draining?)
  {
    hide Sound, Shuts, Removable, Removed, AfterDrain, ClosedWorld;
    var m, d := w.core.machine, w.core.machine.gate.Draining?;
    SameShuts(w, w, d);
    if reply.epoch == m.epoch && m.phase.Live? {
      ClosedShuts(w, UnexpectedReply, None);
      ShutsWeaken(w, ClosedWorld(w, UnexpectedReply, None), d);
      if m.pending != [] && Machine.AwaitsReply(m.pending[0]) {
        var expected := m.pending[0].reservation.key;
        var blame := Some(Machine.Blame(m.pending[0].id, ReplyKeyMismatch(expected, reply.key)));
        ClosedShuts(w, MatchKeyMismatch(expected, reply.key), blame);
        ShutsWeaken(w, ClosedWorld(w, MatchKeyMismatch(expected, reply.key), blame), d);
        AnsweredRemovable(w, g, Reply(reply.payload));
        RemovedShuts(w, g, Tight, 0, Reply(reply.payload));
      }
    }
  }

  lemma AdvanceShuts(w: World, g: Ghosts, k: nat, count: nat)
    requires Sound(w, g, Tight) && w.core.writer.frames != [] && |w.core.writer.frames| <= |w.core.machine.pending|
    requires k == WrittenCount(w.core.machine.pending, w.core.writer.frames) < |w.core.machine.pending|
    requires w.core.writer.frames[0].written + count <= w.core.writer.frames[0].wire
    ensures Shuts(w, ReportedWorld(w, count), w.core.machine.gate.Draining?)
  {
    hide Sound, Shuts, Removable, Removed, AfterDrain, WrittenWorld, ReportedWorld, Progress.Progressed, CanRelease,
      Fronted;
    var d := w.core.machine.gate.Draining?;
    ReportedCases(w, k, count);
    ProgressedGate(w, count);
    var moved := Progress.Progressed(w, count);
    SameShuts(w, moved, d);
    SameShuts(w, moved, false);
    if w.core.writer.frames[0].written + count == w.core.writer.frames[0].wire {
      LastByte(w, g, count);
      if w.core.machine.pending[k].completion.ReplyExpected? {
        WrittenShuts(moved, d);
        ShutsThen(w, moved, WrittenWorld(moved), d);
      } else {
        CompletedRemovable(moved, g);
        RemovedShuts(moved, g, Full, k, WriteDone(moved.core.machine.pending[k].delivery));
        ShutsThen(w, moved, DoneWorld(w, k, count), d);
      }
    }
  }

  lemma ProgressedGate(w: World, count: nat)
    requires 0 < |w.core.writer.frames| <= |w.core.machine.pending|
    ensures var moved := Progress.Progressed(w, count);
      moved.trace == w.trace && moved.core.machine.phase == w.core.machine.phase
      && moved.core.machine.gate == w.core.machine.gate
  {
  }

  lemma WrittenShuts(w: World, drained: bool)
    requires 0 < |w.core.writer.frames| <= |w.core.machine.pending|
    ensures Shuts(w, WrittenWorld(w), drained)
  {
    SameShuts(w, WrittenWorld(w), drained);
  }

  // --------------------------------------------------------------- what stays

  /** The same owner: epoch, limits, permits and accepted identities. */
  ghost predicate Kin(w: World, after: World) {
    && after.core.machine.epoch == w.core.machine.epoch
    && after.core.machine.ledger.limits == w.core.machine.ledger.limits
    && after.permits == w.permits && after.recovered == w.recovered
    && CommitIds(after.commits) == CommitIds(w.commits)
    && after.core.poisoned == w.core.poisoned
  }

  lemma {:induction false} ReleaseEachLimits(l: LedgerState, pending: seq<Record>)
    ensures Machine.ReleaseEach(l, pending).limits == l.limits
  {
    if pending != [] {
      ReleaseEachLimits(l, pending[..|pending| - 1]);
      hide Release, Machine.ReleaseEach;
      KeepsLimits(Machine.ReleaseEach(l, pending[..|pending| - 1]), pending[|pending| - 1].reservation,
        pending[|pending| - 1].writeHeld, false);
      assert Machine.ReleaseEach(l, pending)
          == Release(Machine.ReleaseEach(l, pending[..|pending| - 1]), pending[|pending| - 1].reservation,
            pending[|pending| - 1].writeHeld, false)
        by { ReleaseEachLast(l, pending); }
    }
  }

  lemma ReleaseEachLast(l: LedgerState, pending: seq<Record>)
    requires pending != []
    ensures Machine.ReleaseEach(l, pending)
         == Release(Machine.ReleaseEach(l, pending[..|pending| - 1]), pending[|pending| - 1].reservation,
           pending[|pending| - 1].writeHeld, false)
  {
  }

  lemma ClosedKin(w: World, reason: CloseReason, blame: Option<Machine.Blame>)
    ensures Kin(w, ClosedWorld(w, reason, blame))
  {
    ReleaseEachLimits(w.core.machine.ledger, w.core.machine.pending);
    hide Machine.ReleaseEach, Machine.CloseEffects, Visible, CommitIds;
  }

  lemma RemovedKin(w: World, i: nat, outcome: OperationOutcome)
    requires i < |w.core.machine.pending| && |w.core.writer.frames| <= |w.core.machine.pending|
    ensures Kin(w, AfterDrain(Removed(w, i, outcome)))
  {
    var m := w.core.machine;
    KeepsLimits(m.ledger, m.pending[i].reservation, m.pending[i].writeHeld, false);
    hide Release, FramesWithout, RetainedSum, CommitIds, ClosedWorld;
    DrainKin(Removed(w, i, outcome));
  }

  lemma DrainKin(w: World)
    ensures Kin(w, AfterDrain(w))
  {
    hide ClosedWorld, CommitIds;
    ClosedKin(w, CloseReason.Drained, None);
  }

  lemma InputKin(w: World, input: Input)
    requires |w.core.writer.frames| <= |w.core.machine.pending|
    ensures Kin(w, InputWorld(w, input))
  {
    hide Removed, AfterDrain, ClosedWorld, CommitIds;
    match input
    case Cancel(_, id) =>
      var at := IndexOf(w.core.machine.pending, id);
      if at.Some? { RemovedKin(w, at.value, Cancelled(NotSent)); }
    case DeadlineReached(_, id, _) =>
      var at := IndexOf(w.core.machine.pending, id);
      ClosedKin(w, DeadlineAfterPossibleSend, None);
      if at.Some? { RemovedKin(w, at.value, Failed(OperationFailure.DeadlineElapsed, NotSent)); }
    case ReplyMalformed(_) => ClosedKin(w, MalformedReply, None);
    case CloseRequested(_, reason) => ClosedKin(w, reason, None);
    case BeginDrain(_) => DrainKin(Regated(w, Draining, Live));
    case _ =>
  }

  lemma ReplyKin(w: World, reply: InboundReply)
    requires |w.core.writer.frames| <= |w.core.machine.pending|
    ensures Kin(w, RepliedWorld(w, reply))
  {
    hide Removed, AfterDrain, ClosedWorld, CommitIds;
    ClosedKin(w, UnexpectedReply, None);
    if w.core.machine.pending != [] {
      var front := w.core.machine.pending[0];
      var expected := front.reservation.key;
      ClosedKin(w, MatchKeyMismatch(expected, reply.key),
        Some(Machine.Blame(front.id, ReplyKeyMismatch(expected, reply.key))));
      RemovedKin(w, 0, Reply(reply.payload));
    }
  }

  lemma AdvanceKin(w: World, k: nat, count: nat)
    requires 0 < |w.core.writer.frames| <= |w.core.machine.pending|
    requires k == WrittenCount(w.core.machine.pending, w.core.writer.frames) < |w.core.machine.pending|
    ensures Kin(w, ReportedWorld(w, count))
  {
    hide Removed, AfterDrain, ReportedWorld, Progress.Progressed, WrittenWorld;
    ReportedCases(w, k, count);
    ProgressedKin(w, count);
    var moved := Progress.Progressed(w, count);
    WrittenKin(moved);
    RemovedKin(moved, k, WriteDone(moved.core.machine.pending[k].delivery));
  }

  lemma ProgressedKin(w: World, count: nat)
    requires 0 < |w.core.writer.frames| <= |w.core.machine.pending|
    ensures var moved := Progress.Progressed(w, count);
      Kin(w, moved) && 0 < |moved.core.writer.frames| <= |moved.core.machine.pending| == |w.core.machine.pending|
  {
    Progress.CreditIds(w.commits, w.core.writer.frames[0].operation, count, count > 0);
    hide Credit, TakenBytes, CommitIds;
  }

  lemma WrittenKin(w: World)
    requires 0 < |w.core.writer.frames| <= |w.core.machine.pending|
    ensures Kin(w, WrittenWorld(w))
  {
    hide CommitIds;
  }
}
