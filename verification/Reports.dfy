/** What one progress report does: nothing, bytes on the wire, a frame written out, or a broken
    owner. */
module Reports {
  import opened Primitives
  import opened KeySet
  import opened Ledger
  import opened Operations
  import opened Writer
  import opened Journal
  import opened Recovery
  import opened Core
  import opened World
  import opened Moves
  import opened Progress
  import opened Removal
  import opened Closure
  import opened Settlement
  import opened Agreement
  import opened Rescue
  import opened Reconciling
  import opened Steps
  import Machine

  // --------------------------------------------------------------- the policy follows the writer

  lemma {:induction false} FoundAt(pending: seq<Record>, i: nat)
    requires DistinctIds(pending) && i < |pending|
    ensures IndexOf(pending, pending[i].id) == Some(i)
  {
  }

  lemma StartAbsorbed(c: CoreState, k: nat, crossed: bool)
    requires k < |c.machine.pending| && IndexOf(c.machine.pending, c.machine.pending[k].id) == Some(k)
    requires crossed ==> c.machine.pending[k].phase.Queued?
    ensures var m := c.machine;
      AbsorbStart(c, m.epoch, m.pending[k].id, m.pending[k].effect, crossed)
        == (c.(machine := m.(pending := if crossed then m.pending[k := Begun(m.pending[k])] else m.pending)), Success([]))
  {
    var none: seq<Effect> := [];
    assert none + none == none;
  }

  lemma ReplyAbsorbed(c: CoreState, k: nat)
    requires k < |c.machine.pending| && IndexOf(c.machine.pending, c.machine.pending[k].id) == Some(k)
    requires c.machine.pending[k].writeHeld && !c.machine.pending[k].phase.AwaitingReply?
    requires c.machine.pending[k].completion.ReplyExpected?
    ensures var m := c.machine;
      AbsorbCompletion(c, [], m.epoch, m.pending[k].id, m.pending[k].effect, true)
        == (c.(machine := m.(ledger := ReleaseWrite(m.ledger, m.pending[k].reservation.writeRetained),
                             pending := m.pending[k := Waiting(m.pending[k])])), Success([]))
  {
    hide ReleaseWrite;
    var none: seq<Effect> := [];
    assert none + none == none;
  }

  /** Giving a frame back and then everything else is giving everything back at once. */
  lemma ReleaseTwice(l: LedgerState, r: Reservation)
    requires CanRelease(l, r, true, false)
    ensures Release(ReleaseWrite(l, r.writeRetained), r, false, false) == Release(l, r, true, false)
  {
  }

  lemma DoneAbsorbed(c: CoreState, k: nat)
    requires k < |c.machine.pending| && IndexOf(c.machine.pending, c.machine.pending[k].id) == Some(k)
    requires c.machine.pending[k].writeHeld && !c.machine.pending[k].phase.AwaitingReply?
    requires c.machine.pending[k].completion.CompleteOnWrite?
    requires CanRelease(c.machine.ledger, c.machine.pending[k].reservation, true, false)
    requires NoDiscards(Machine.FinishDrain(Machine.Without(c.machine, k)).1)
    ensures var m := c.machine;
      var (m', more) := Machine.FinishDrain(Machine.Without(m, k));
      AbsorbCompletion(c, [], m.epoch, m.pending[k].id, m.pending[k].effect, true)
        == (c.(machine := m'), Success(Farewell(m.epoch, m.pending[k], WriteDone(m.pending[k].delivery)) + more))
  {
    var m := c.machine;
    var r := m.pending[k];
    var bye := Farewell(m.epoch, r, WriteDone(r.delivery));
    ReleaseTwice(m.ledger, r.reservation);
    hide Release, ReleaseWrite, Machine.FinishDrain, Reconcile, CanRelease;
    var (m', t) := Machine.WriteCompleted(m, m.epoch, r.id, r.effect);
    var (m'', more) := Machine.FinishDrain(Machine.Without(m, k));
    assert t.effects == bye + more;
    ReconcileQuiet(c.(machine := m'), bye + more);
    assert [] + (bye + more) == bye + more;
  }

  // --------------------------------------------------------------- one report

  /** The record at `k` is done with its last byte. */
  function DoneWorld(w: World, k: nat, count: nat): World
    requires 0 < |w.core.writer.frames| <= |w.core.machine.pending| && k < |w.core.machine.pending|
  {
    var moved := Progressed(w, count);
    AfterDrain(Removed(moved, k, WriteDone(moved.core.machine.pending[k].delivery)))
  }

  /** The world after a report for the front frame that it can contain. */
  function ReportedWorld(w: World, count: nat): World
    requires 0 < |w.core.writer.frames| <= |w.core.machine.pending|
  {
    var q := w.core.writer.frames[0];
    var k := WrittenCount(w.core.machine.pending, w.core.writer.frames);
    var moved := Progressed(w, count);
    if q.written + count != q.wire then moved
    else if w.core.machine.pending[k].completion.ReplyExpected? then WrittenWorld(moved)
    else DoneWorld(w, k, count)
  }

  /** What a report does: refused and ignored unless it names the front of this epoch, broken when
      it claims more than the front has left, and otherwise exactly `count` bytes of progress. */
  function AdvancedWorld(w: World, epoch: Epoch, effect: EffectId, count: nat): World
    requires |w.core.writer.frames| <= |w.core.machine.pending|
    requires w.core.writer.frames != [] ==> w.core.writer.frames[0].written <= w.core.writer.frames[0].wire
  {
    var frames := w.core.writer.frames;
    if epoch != w.core.machine.epoch || frames == [] || frames[0].effect != effect then w
    else
      var remaining := frames[0].wire - frames[0].written;
      if remaining < count then OverReported(w, WriteProgressContract(count, remaining))
      else ReportedWorld(w, count)
  }

  /** A report for its own front can only be too large, partial or whole. */
  lemma TooLarge(writer: WriterState, count: nat)
    requires writer.frames != [] && writer.frames[0].written <= writer.frames[0].wire
    requires writer.frames[0].wire - writer.frames[0].written < count
    ensures var q := writer.frames[0];
      Advance(writer, writer.epoch, q.effect, count)
        == (writer.(frames := writer.frames[0 := q.(started := true)]), Failure(ExceedsRemaining(count, q.wire - q.written)))
  {
  }

  lemma Partial(writer: WriterState, count: nat)
    requires writer.frames != [] && writer.frames[0].written <= writer.frames[0].wire
    requires count < writer.frames[0].wire - writer.frames[0].written
    ensures var q := writer.frames[0];
      Advance(writer, writer.epoch, q.effect, count)
        == (writer.(frames := writer.frames[0 := Moved(q, count)]), Success(Pending(q.operation, count > 0 && !q.started)))
  {
  }

  lemma AllRemaining(writer: WriterState, count: nat)
    requires writer.frames != [] && writer.frames[0].written <= writer.frames[0].wire
    requires writer.used == RetainedSum(writer.frames) && count == writer.frames[0].wire - writer.frames[0].written
    ensures var q := writer.frames[0];
      Advance(writer, writer.epoch, q.effect, count)
        == (writer.(frames := writer.frames[1..], used := RetainedSum(writer.frames[1..])),
            Success(Complete(q.operation, Moved(q, count), count > 0 && !q.started)))
  {
    RetainedRemove(writer.frames, 0);
    assert RemoveAt(writer.frames, 0) == writer.frames[1..];
    hide RetainedSum, RemoveAt;
  }

  /** The front frame and the record that owns it. */
  ghost predicate Fronted(c: CoreState, k: nat) {
    var pending, frames := c.machine.pending, c.writer.frames;
    && frames != [] && k == WrittenCount(pending, frames) && k < |pending|
    && c.writer.epoch == c.machine.epoch && c.writer.used == RetainedSum(frames)
    && IndexOf(pending, pending[k].id) == Some(k)
    && frames[0].operation == pending[k].id && frames[0].effect == pending[k].effect
    && pending[k].writeHeld && !pending[k].phase.AwaitingReply? && frames[0].written <= frames[0].wire
    && (!frames[0].started ==> pending[k].phase.Queued?)
    && !c.machine.ledger.poisoned && c.poisoned.None?
    && c.journal == Cleared(c.journal) && 0 < c.journal.maxOperations && 0 < c.journal.maxWrites
  }

  lemma FrontReady(w: World, g: Ghosts)
    requires Sound(w, g, Tight) && w.core.writer.frames != []
    ensures var k := WrittenCount(w.core.machine.pending, w.core.writer.frames); 0 <= k && Fronted(w.core, k)
  {
    var pending := w.core.machine.pending;
    var k := WrittenCount(pending, w.core.writer.frames);
    FrontFacts(w, g, Tight);
    JournalRoom(w, g, Tight);
    PendingDistinct(w, g);
    FoundAt(pending, k);
    hide Structured, Identified, Recorded, Balanced, RetainedSum, DistinctIds;
  }

  lemma Followed(c: CoreState, epoch: Epoch, effect: EffectId, operation: OperationId, crossed: bool, complete: bool,
                 c1: CoreState, c2: CoreState, effects: seq<Effect>)
    requires AbsorbStart(c, epoch, operation, effect, crossed) == (c1, Success([]))
    requires AbsorbCompletion(c1, [], epoch, operation, effect, complete) == (c2, Success(effects))
    requires !c2.machine.ledger.poisoned && c2.poisoned.None?
    ensures Follow(c, epoch, effect, operation, crossed, complete)
         == (c2.(journal := Cleared(c2.journal)), Success(Transition(Applied, None, effects)))
  {
    hide AbsorbStart, AbsorbCompletion;
  }

  /** Progress that leaves bytes to write moves the frame and, at its first byte, its record. */
  lemma PartialAdvances(c: CoreState, k: nat, count: nat)
    requires Fronted(c, k) && count < c.writer.frames[0].wire - c.writer.frames[0].written
    ensures |c.writer.frames| <= |c.machine.pending|
    ensures AdvanceWrite(c, c.machine.epoch, c.writer.frames[0].effect, count)
         == (c.(machine := c.machine.(pending := Crossed(c.machine.pending, c.writer.frames, count)),
                writer := c.writer.(frames := c.writer.frames[0 := Moved(c.writer.frames[0], count)])),
             Success(Transition(Applied, None, [])))
  {
    var m, q := c.machine, c.writer.frames[0];
    var writer := c.writer.(frames := c.writer.frames[0 := Moved(q, count)]);
    Partial(c.writer, count);
    var crossed := count > 0 && !q.started;
    var begun := c.(journal := BeginProgress(c.journal), writer := writer);
    StartAbsorbed(begun, k, crossed);
    var started := begun.(machine := m.(pending := Crossed(m.pending, c.writer.frames, count)));
    hide Advance, AbsorbStart, IndexOf, RetainedSum, Follow;
    Followed(begun, m.epoch, q.effect, q.operation, crossed, false, started, started, []);
  }

  /** The journal copies a completed frame and its record before the policy moves. */
  lemma CompletionJournaled(c: CoreState, k: nat, q: QueuedWrite)
    requires k < |c.machine.pending| && IndexOf(c.machine.pending, q.operation) == Some(k)
    requires c.journal == BeginProgress(c.journal) && 0 < c.journal.maxOperations && 0 < c.journal.maxWrites
    ensures JournalCompletion(c, q)
         == (c.(journal := c.journal.(writes := [AsDiscarded(q)], operations := [Entry(c.machine.pending[k], k)])), None)
  {
    assert c.journal.writes == [] && c.journal.operations == [];
    assert c.journal.writes + [AsDiscarded(q)] == [AsDiscarded(q)];
    assert c.journal.operations + [Entry(c.machine.pending[k], k)] == [Entry(c.machine.pending[k], k)];
  }

  lemma SameIndex(pending: seq<Record>, frames: seq<QueuedWrite>, count: nat, k: nat)
    requires 0 < |frames| <= |pending| && k == WrittenCount(pending, frames)
    requires IndexOf(pending, pending[k].id) == Some(k)
    ensures var after := Crossed(pending, frames, count);
      |after| == |pending| && after[k].id == pending[k].id && after[k].effect == pending[k].effect
      && IndexOf(after, pending[k].id) == Some(k)
  {
    var after := Crossed(pending, frames, count);
    assert forall i :: 0 <= i < |pending| ==> after[i].id == pending[i].id;
  }

  /** A report of everything left pops the frame and settles its record. */
  lemma WholeAdvances(c: CoreState, k: nat, count: nat, c2: CoreState, effects: seq<Effect>)
    requires Fronted(c, k) && count == c.writer.frames[0].wire - c.writer.frames[0].written
    requires |c.writer.frames| <= |c.machine.pending|
    requires var m, q := c.machine, c.writer.frames[0];
      var started := c2.(machine := m.(pending := Crossed(m.pending, c.writer.frames, count)));
      AbsorbCompletion(started, [], m.epoch, q.operation, q.effect, true) == (c2, Success(effects))
    requires !c2.machine.ledger.poisoned && c2.poisoned.None? && c2.audited == c.audited
    requires c2.writer == c.writer.(frames := c.writer.frames[1..], used := RetainedSum(c.writer.frames[1..]))
    requires c2.journal == WholeJournal(c, k, count)
    ensures AdvanceWrite(c, c.machine.epoch, c.writer.frames[0].effect, count)
         == (c2.(journal := c.journal), Success(Transition(Applied, None, effects)))
  {
    var m, q := c.machine, c.writer.frames[0];
    var crossed := count > 0 && !q.started;
    AllRemaining(c.writer, count);
    var begun := c.(journal := BeginProgress(c.journal), writer := c2.writer);
    CompletionJournaled(begun, k, Moved(q, count));
    var journaled := begun.(journal := c2.journal);
    StartAbsorbed(journaled, k, crossed);
    var started := journaled.(machine := m.(pending := Crossed(m.pending, c.writer.frames, count)));
    assert started == c2.(machine := m.(pending := Crossed(m.pending, c.writer.frames, count)));
    hide Advance, AbsorbStart, AbsorbCompletion, IndexOf, RetainedSum, Follow, JournalCompletion;
    Followed(journaled, m.epoch, q.effect, q.operation, crossed, true, started, c2, effects);
  }

  /** The journal while a whole frame settles. */
  function WholeJournal(c: CoreState, k: nat, count: nat): JournalState
    requires k < |c.machine.pending| && c.writer.frames != []
  {
    BeginProgress(c.journal).(writes := [AsDiscarded(Moved(c.writer.frames[0], count))],
                              operations := [Entry(c.machine.pending[k], k)])
  }

  // --------------------------------------------------------------- the step in the world

  lemma ReportIgnored(w: World, g: Ghosts, epoch: Epoch, effect: EffectId, count: nat)
    requires Sound(w, g, Tight)
    requires epoch != w.core.machine.epoch || w.core.writer.frames == [] || w.core.writer.frames[0].effect != effect
    ensures StepAdvance(w, epoch, effect, count) == w
  {
    hide Sound, Credit, TakenBytes, RetainedSum, Violation;
    NoneHeld(w, g);
    SoundEpoch(w, g);
  }

  lemma SoundEpoch(w: World, g: Ghosts)
    requires Sound(w, g, Tight)
    ensures w.core.writer.epoch == w.core.machine.epoch && w.core.poisoned.None?
    ensures w.core.journal == Cleared(w.core.journal)
  {
  }

  lemma ReportBreaks(w: World, k: nat, count: nat)
    requires Fronted(w.core, k) && w.core.writer.frames[0].wire - w.core.writer.frames[0].written < count
    ensures var q := w.core.writer.frames[0];
      StepAdvance(w, w.core.machine.epoch, q.effect, count)
        == OverReported(w, WriteProgressContract(count, q.wire - q.written))
    ensures AdvanceWrite(w.core, w.core.machine.epoch, w.core.writer.frames[0].effect, count).1
         == Failure(Broken(WriteProgressContract(count, w.core.writer.frames[0].wire - w.core.writer.frames[0].written)))
  {
    TooLarge(w.core.writer, count);
    hide Advance, IndexOf, RetainedSum, Credit, TakenBytes;
  }

  lemma ReportMoves(w: World, k: nat, count: nat)
    requires Fronted(w.core, k) && count < w.core.writer.frames[0].wire - w.core.writer.frames[0].written
    ensures |w.core.writer.frames| <= |w.core.machine.pending|
    ensures StepAdvance(w, w.core.machine.epoch, w.core.writer.frames[0].effect, count) == Progressed(w, count)
    ensures AdvanceWrite(w.core, w.core.machine.epoch, w.core.writer.frames[0].effect, count).1.Success?
  {
    PartialAdvances(w.core, k, count);
    assert w.trace + [] == w.trace;
    hide AdvanceWrite, Fronted, Credit, TakenBytes, Crossed, Moved;
  }

  lemma CrossedFacts(c: CoreState, k: nat, count: nat)
    requires Fronted(c, k) && |c.writer.frames| <= |c.machine.pending|
    ensures var after := Crossed(c.machine.pending, c.writer.frames, count);
      |after| == |c.machine.pending| && after[k].id == c.machine.pending[k].id
      && after[k].effect == c.machine.pending[k].effect
      && IndexOf(after, after[k].id) == Some(k)
      && after[k].writeHeld && !after[k].phase.AwaitingReply? && after[k].completion == c.machine.pending[k].completion
      && after[k].reservation == c.machine.pending[k].reservation
  {
    SameIndex(c.machine.pending, c.writer.frames, count, k);
    hide IndexOf;
  }

  lemma WrittenOwner(w: World, k: nat, count: nat)
    requires Fronted(w.core, k) && |w.core.writer.frames| <= |w.core.machine.pending|
    requires count == w.core.writer.frames[0].wire - w.core.writer.frames[0].written
    ensures var moved := Progressed(w, count);
      WrittenCount(moved.core.machine.pending, moved.core.writer.frames) == k
      && moved.core.writer.frames[1..] == w.core.writer.frames[1..]
  {
  }

  /** The whole frame is out and its operation waits for a reply. */
  lemma ReportWaits(w: World, k: nat, count: nat)
    requires Fronted(w.core, k) && |w.core.writer.frames| <= |w.core.machine.pending|
    requires count == w.core.writer.frames[0].wire - w.core.writer.frames[0].written
    requires w.core.machine.pending[k].completion.ReplyExpected?
    requires !WrittenWorld(Progressed(w, count)).core.machine.ledger.poisoned
    ensures StepAdvance(w, w.core.machine.epoch, w.core.writer.frames[0].effect, count) == WrittenWorld(Progressed(w, count))
    ensures AdvanceWrite(w.core, w.core.machine.epoch, w.core.writer.frames[0].effect, count).1.Success?
  {
    var c := w.core;
    var moved := Progressed(w, count);
    WrittenOwner(w, k, count);
    CrossedFacts(c, k, count);
    var c2 := WrittenWorld(moved).core.(journal := WholeJournal(c, k, count));
    var started := c2.(machine := moved.core.machine);
    ReplyAbsorbed(started, k);
    hide AbsorbCompletion, ReleaseWrite, Crossed, RetainedSum, WholeJournal, Credit, TakenBytes, IndexOf;
    WholeAdvances(c, k, count, c2, []);
    assert w.trace + [] == w.trace;
    hide AdvanceWrite, Fronted, Waiting;
  }

  /** The whole frame is out and nothing more is owed. */
  lemma ReportCompletes(w: World, k: nat, count: nat)
    requires Fronted(w.core, k) && |w.core.writer.frames| <= |w.core.machine.pending|
    requires count == w.core.writer.frames[0].wire - w.core.writer.frames[0].written
    requires w.core.machine.pending[k].completion.CompleteOnWrite?
    requires var moved := Progressed(w, count);
      CanRelease(moved.core.machine.ledger, w.core.machine.pending[k].reservation, true, false)
    requires var moved := Progressed(w, count);
      var outcome := WriteDone(moved.core.machine.pending[k].delivery);
      var (m, more) := Machine.FinishDrain(Machine.Without(moved.core.machine, k));
      NoDiscards(more) && !m.ledger.poisoned
      && AfterDrain(Removed(moved, k, outcome))
         == Removed(moved, k, outcome).(core := Removed(moved, k, outcome).core.(machine := m),
                                        trace := Removed(moved, k, outcome).trace + more)
    ensures StepAdvance(w, w.core.machine.epoch, w.core.writer.frames[0].effect, count) == DoneWorld(w, k, count)
    ensures AdvanceWrite(w.core, w.core.machine.epoch, w.core.writer.frames[0].effect, count).1.Success?
  {
    var c := w.core;
    var moved := Progressed(w, count);
    var r := moved.core.machine.pending[k];
    WrittenOwner(w, k, count);
    CrossedFacts(c, k, count);
    var (m, more) := Machine.FinishDrain(Machine.Without(moved.core.machine, k));
    var bye := Farewell(moved.core.machine.epoch, r, WriteDone(r.delivery));
    var removed := Removed(moved, k, WriteDone(r.delivery));
    assert removed.core.writer.frames == c.writer.frames[1..] by {
      PoppedFrames(moved.core.machine.pending, moved.core.writer.frames, k);
    }
    var c2 := removed.core.(machine := m, journal := WholeJournal(c, k, count));
    var started := c2.(machine := moved.core.machine);
    DoneAbsorbed(started, k);
    hide AbsorbCompletion, Crossed, RetainedSum, WholeJournal, Credit, TakenBytes, IndexOf, Machine.Without,
      Machine.FinishDrain, AfterDrain, NoDiscards, CanRelease, FramesWithout;
    WholeAdvances(c, k, count, c2, bye + more);
    assert w.trace + bye + more == w.trace + (bye + more);
    hide AdvanceWrite, Fronted, Farewell;
  }

  lemma PoppedFrames(pending: seq<Record>, frames: seq<QueuedWrite>, k: nat)
    requires k < |pending| && 0 < |frames| <= |pending| && WrittenCount(pending, frames) == k
    ensures FramesWithout(pending, frames, k) == frames[1..]
  {
    assert RemoveAt(frames, 0) == frames[1..];
  }

  // --------------------------------------------------------------- every report

  lemma WrittenHealthy(w: World, g: Ghosts)
    requires Sound(w, g, Full) && w.core.writer.frames != []
    requires w.core.machine.pending[WrittenCount(w.core.machine.pending, w.core.writer.frames)].completion.ReplyExpected?
    ensures !WrittenWorld(w).core.machine.ledger.poisoned
  {
    WrittenKeeps(w, g);
    NoneHeld(WrittenWorld(w), WrittenGhosts(w, g));
  }

  lemma CompletedRemovable(w: World, g: Ghosts)
    requires Sound(w, g, Full) && w.core.writer.frames != []
    ensures var k := WrittenCount(w.core.machine.pending, w.core.writer.frames);
      0 <= k < |w.core.machine.pending| && Removable(w, Full, k, WriteDone(w.core.machine.pending[k].delivery))
      && CanRelease(w.core.machine.ledger, w.core.machine.pending[k].reservation, true, false)
  {
    hide Structured, Identified, Accounted, Recorded, Closures, CanRelease;
    var k := WrittenCount(w.core.machine.pending, w.core.writer.frames);
    FrontFacts(w, g, Full);
    FrontReleasable(w, k);
  }

  lemma FrontReleasable(w: World, k: nat)
    requires Accounted(w) && k < |w.core.machine.pending| && w.core.machine.pending[k].writeHeld
    ensures CanRelease(w.core.machine.ledger, w.core.machine.pending[k].reservation, true, false)
  {
    hide Balanced, RetainedSum, CanRelease;
    var claims := Claims(w.permits, w.core.machine.pending);
    UpdateClaims(w.permits, w.core.machine.pending, k, w.core.machine.pending[k]);
    ReleaseBalanced(w.core.machine.ledger, claims, |w.permits| + k);
  }

  lemma CompletedDrains(w: World, g: Ghosts)
    requires Sound(w, g, Full) && w.core.writer.frames != []
    ensures |w.core.writer.frames| <= |w.core.machine.pending|
    ensures var k := WrittenCount(w.core.machine.pending, w.core.writer.frames);
      var outcome := WriteDone(w.core.machine.pending[k].delivery);
      var (m, more) := Machine.FinishDrain(Machine.Without(w.core.machine, k));
      NoDiscards(more) && !m.ledger.poisoned
      && AfterDrain(Removed(w, k, outcome))
         == Removed(w, k, outcome).(core := Removed(w, k, outcome).core.(machine := m),
                                    trace := Removed(w, k, outcome).trace + more)
  {
    hide Sound, Removable, CanRelease, AfterDrain, Machine.FinishDrain, Machine.Without, NoDiscards;
    CompletedRemovable(w, g);
    var k := WrittenCount(w.core.machine.pending, w.core.writer.frames);
    var outcome := WriteDone(w.core.machine.pending[k].delivery);
    RemovedDrains(w, g, Full, k, outcome);
    RemovedHealthy(w, g, Full, k, outcome);
    DrainMatches(Removed(w, k, outcome));
  }

  /** The world right after the last byte of the front frame, before its record settles. */
  lemma LastByte(w: World, g: Ghosts, count: nat)
    requires Sound(w, g, Tight) && w.core.writer.frames != []
    requires w.core.writer.frames[0].written + count == w.core.writer.frames[0].wire
    ensures |w.core.writer.frames| <= |w.core.machine.pending|
    ensures Sound(Progressed(w, count), g, Full)
    ensures var k := WrittenCount(w.core.machine.pending, w.core.writer.frames);
      0 <= k && Fronted(w.core, k) && MovedFront(w, k, count)
  {
    hide Sound, Fronted, Progressed, MovedFront;
    SoundCounts(w, g);
    FrontReady(w, g);
    ProgressKeeps(w, g, count);
    MovedFronts(w, WrittenCount(w.core.machine.pending, w.core.writer.frames), count);
  }

  ghost predicate MovedFront(w: World, k: nat, count: nat)
    requires 0 < |w.core.writer.frames| <= |w.core.machine.pending|
  {
    var moved := Progressed(w, count);
    && moved.core.writer.frames != []
    && WrittenCount(moved.core.machine.pending, moved.core.writer.frames) == k
    && k < |moved.core.machine.pending| == |w.core.machine.pending|
    && moved.core.machine.pending[k].completion == w.core.machine.pending[k].completion
    && moved.core.machine.pending[k].reservation == w.core.machine.pending[k].reservation
  }

  lemma MovedFronts(w: World, k: nat, count: nat)
    requires Fronted(w.core, k) && |w.core.writer.frames| <= |w.core.machine.pending|
    ensures MovedFront(w, k, count)
  {
    CrossedFacts(w.core, k, count);
    hide IndexOf, Crossed;
  }

  lemma LastByteWaits(w: World, g: Ghosts, k: nat, count: nat)
    requires Sound(w, g, Tight) && w.core.writer.frames != [] && |w.core.writer.frames| <= |w.core.machine.pending|
    requires w.core.writer.frames[0].written + count == w.core.writer.frames[0].wire
    requires k == WrittenCount(w.core.machine.pending, w.core.writer.frames) && k < |w.core.machine.pending|
    requires w.core.machine.pending[k].completion.ReplyExpected?
    ensures StepAdvance(w, w.core.machine.epoch, w.core.writer.frames[0].effect, count) == WrittenWorld(Progressed(w, count))
    ensures AdvanceWrite(w.core, w.core.machine.epoch, w.core.writer.frames[0].effect, count).1.Success?
  {
    hide Sound, Fronted, StepAdvance, Progressed, WrittenWorld;
    LastByte(w, g, count);
    WrittenHealthy(Progressed(w, count), g);
    ReportWaits(w, k, count);
  }

  lemma LastByteCompletes(w: World, g: Ghosts, k: nat, count: nat)
    requires Sound(w, g, Tight) && w.core.writer.frames != [] && |w.core.writer.frames| <= |w.core.machine.pending|
    requires w.core.writer.frames[0].written + count == w.core.writer.frames[0].wire
    requires k == WrittenCount(w.core.machine.pending, w.core.writer.frames) && k < |w.core.machine.pending|
    requires w.core.machine.pending[k].completion.CompleteOnWrite?
    ensures StepAdvance(w, w.core.machine.epoch, w.core.writer.frames[0].effect, count) == DoneWorld(w, k, count)
    ensures AdvanceWrite(w.core, w.core.machine.epoch, w.core.writer.frames[0].effect, count).1.Success?
  {
    hide Sound, Fronted, StepAdvance, AfterDrain, Removed, Machine.FinishDrain, Machine.Without, NoDiscards,
      CanRelease, Crossed, Moved, Credit, TakenBytes;
    LastByte(w, g, count);
    CompletedRemovable(Progressed(w, count), g);
    CompletedDrains(Progressed(w, count), g);
    ReportCompletes(w, k, count);
  }

  lemma ReportedCases(w: World, k: nat, count: nat)
    requires 0 < |w.core.writer.frames| <= |w.core.machine.pending|
    requires k == WrittenCount(w.core.machine.pending, w.core.writer.frames) && k < |w.core.machine.pending|
    ensures var q := w.core.writer.frames[0];
      var mode := w.core.machine.pending[k].completion;
      (q.written + count != q.wire ==> ReportedWorld(w, count) == Progressed(w, count))
      && (q.written + count == q.wire && mode.ReplyExpected? ==>
            ReportedWorld(w, count) == WrittenWorld(Progressed(w, count)))
      && (q.written + count == q.wire && mode.CompleteOnWrite? ==> ReportedWorld(w, count) == DoneWorld(w, k, count))
  {
    hide Progressed, WrittenWorld, AfterDrain, Removed;
  }

  lemma ReportComputes(w: World, g: Ghosts, k: nat, count: nat)
    requires Sound(w, g, Tight) && w.core.writer.frames != [] && |w.core.writer.frames| <= |w.core.machine.pending|
    requires w.core.writer.frames[0].written + count <= w.core.writer.frames[0].wire
    requires k == WrittenCount(w.core.machine.pending, w.core.writer.frames) && k < |w.core.machine.pending|
    ensures StepAdvance(w, w.core.machine.epoch, w.core.writer.frames[0].effect, count) == ReportedWorld(w, count)
    ensures AdvanceWrite(w.core, w.core.machine.epoch, w.core.writer.frames[0].effect, count).1.Success?
  {
    hide Sound, Fronted, StepAdvance, Progressed, WrittenWorld, DoneWorld, ReportedWorld;
    ReportedCases(w, k, count);
    if w.core.writer.frames[0].written + count != w.core.writer.frames[0].wire {
      FrontReady(w, g);
      ReportMoves(w, k, count);
    } else if w.core.machine.pending[k].completion.ReplyExpected? {
      LastByteWaits(w, g, k, count);
    } else {
      LastByteCompletes(w, g, k, count);
    }
  }

  /** Every progress report, right or wrong, computes the world stated for it. */
  lemma AdvanceComputes(w: World, g: Ghosts, epoch: Epoch, effect: EffectId, count: nat)
    requires Sound(w, g, Tight)
    ensures |w.core.writer.frames| <= |w.core.machine.pending|
    ensures w.core.writer.frames != [] ==> w.core.writer.frames[0].written <= w.core.writer.frames[0].wire
    ensures StepAdvance(w, epoch, effect, count) == AdvancedWorld(w, epoch, effect, count)
  {
    hide Sound, Fronted, StepAdvance, ReportedWorld, OverReported;
    SoundCounts(w, g);
    if epoch != w.core.machine.epoch || w.core.writer.frames == [] || w.core.writer.frames[0].effect != effect {
      ReportIgnored(w, g, epoch, effect, count);
      if w.core.writer.frames != [] { FrontBounds(w, g); }
    } else {
      FrontBounds(w, g);
      FrontReady(w, g);
      var k := WrittenCount(w.core.machine.pending, w.core.writer.frames);
      if w.core.writer.frames[0].wire - w.core.writer.frames[0].written < count {
        ReportBreaks(w, k, count);
      } else {
        ReportComputes(w, g, k, count);
      }
    }
  }

  lemma FrontBounds(w: World, g: Ghosts)
    requires Sound(w, g, Tight) && w.core.writer.frames != []
    ensures w.core.writer.frames[0].written <= w.core.writer.frames[0].wire
    ensures 0 <= WrittenCount(w.core.machine.pending, w.core.writer.frames) < |w.core.machine.pending|
  {
    FrontFacts(w, g, Tight);
  }

  // --------------------------------------------------------------- every report keeps the invariant

  lemma ReportKeeps(w: World, g: Ghosts, k: nat, count: nat) returns (h: Ghosts)
    requires Inv(w, g) && w.core.poisoned.None? && w.core.writer.frames != []
    requires w.core.writer.frames[0].written + count <= w.core.writer.frames[0].wire
    requires |w.core.writer.frames| <= |w.core.machine.pending|
    requires k == WrittenCount(w.core.machine.pending, w.core.writer.frames) && k < |w.core.machine.pending|
    ensures Inv(ReportedWorld(w, count), h)
  {
    hide Sound, Fronted, Progressed, WrittenWorld, DoneWorld, ReportedWorld, Busy;
    ReportedCases(w, k, count);
    ProgressBusy(w, count);
    if w.core.writer.frames[0].written + count != w.core.writer.frames[0].wire {
      h := g;
      ProgressKeeps(w, g, count);
      SoundHealthy(Progressed(w, count), g, Tight);
    } else {
      h := LastByteKeeps(w, g, k, count);
    }
  }

  lemma LastByteKeeps(w: World, g: Ghosts, k: nat, count: nat) returns (h: Ghosts)
    requires Inv(w, g) && w.core.poisoned.None? && w.core.writer.frames != []
    requires w.core.writer.frames[0].written + count == w.core.writer.frames[0].wire
    requires |w.core.writer.frames| <= |w.core.machine.pending|
    requires k == WrittenCount(w.core.machine.pending, w.core.writer.frames) && k < |w.core.machine.pending|
    ensures Inv(ReportedWorld(w, count), h)
  {
    hide Sound, Fronted, Progressed, WrittenWorld, AfterDrain, Removed, ReportedWorld, Busy;
    ReportedCases(w, k, count);
    ProgressBusy(w, count);
    LastByte(w, g, count);
    if w.core.machine.pending[k].completion.ReplyExpected? {
      h := WaitingKeeps(Progressed(w, count), g, k);
    } else {
      StructureOf(Progressed(w, count), g, Full);
      h := CompletedKeeps(Progressed(w, count), g, k);
    }
  }

  lemma WaitingKeeps(w: World, g: Ghosts, k: nat) returns (h: Ghosts)
    requires Sound(w, g, Full) && Busy(w) && w.core.writer.frames != []
    requires k == WrittenCount(w.core.machine.pending, w.core.writer.frames) < |w.core.machine.pending|
    requires w.core.machine.pending[k].completion.ReplyExpected?
    ensures Inv(WrittenWorld(w), h)
  {
    hide Sound, WrittenWorld;
    StructureOf(w, g, Full);
    WrittenKeeps(w, g);
    WrittenBusy(w);
    h := WrittenGhosts(w, g);
    SoundHealthy(WrittenWorld(w), h, Tight);
  }

  lemma CompletedKeeps(w: World, g: Ghosts, k: nat) returns (h: Ghosts)
    requires Sound(w, g, Full) && w.core.writer.frames != [] && |w.core.writer.frames| <= |w.core.machine.pending|
    requires k == WrittenCount(w.core.machine.pending, w.core.writer.frames) < |w.core.machine.pending|
    ensures Inv(AfterDrain(Removed(w, k, WriteDone(w.core.machine.pending[k].delivery))), h)
  {
    hide Sound, AfterDrain, Removed, CanRelease, Removable;
    CompletedRemovable(w, g);
    StructureOf(w, g, Full);
    h := RemovedInv(w, g, Full, k, WriteDone(w.core.machine.pending[k].delivery));
  }

  lemma RemovedInv(w: World, g: Ghosts, slack: Slack, i: nat, outcome: OperationOutcome) returns (h: Ghosts)
    requires Sound(w, g, slack) && Removable(w, slack, i, outcome)
    requires i < |w.core.machine.pending| && |w.core.writer.frames| <= |w.core.machine.pending|
    ensures Inv(AfterDrain(Removed(w, i, outcome)), h)
  {
    hide Sound, AfterDrain, Removed, Removable;
    StructureOf(w, g, slack);
    RemovalKeeps(w, g, slack, i, outcome);
    var without := GhostsWithout(g, w, i);
    DrainKeeps(Removed(w, i, outcome), without);
    h := DrainedGhosts(Removed(w, i, outcome), without);
    SoundHealthy(AfterDrain(Removed(w, i, outcome)), h, Tight);
  }

  lemma SoundHealthy(w: World, g: Ghosts, slack: Slack)
    requires Sound(w, g, slack)
    ensures slack.Loose? <==> w.core.poisoned.Some?
  {
  }

  lemma StructureOf(w: World, g: Ghosts, slack: Slack)
    requires Sound(w, g, slack)
    ensures |w.core.writer.frames| <= |w.core.machine.pending| == |g.order|
    ensures forall a :: 0 <= a < |g.order| ==> g.order[a] < |w.commits|
  {
  }

  lemma ProgressBusy(w: World, count: nat)
    requires Busy(w) && 0 < |w.core.writer.frames| <= |w.core.machine.pending|
    ensures Busy(Progressed(w, count))
  {
  }

  lemma WrittenBusy(w: World)
    requires Busy(w) && 0 < |w.core.writer.frames| <= |w.core.machine.pending|
    ensures Busy(WrittenWorld(w))
  {
  }

  lemma AdvancedKeeps(w: World, g: Ghosts, epoch: Epoch, effect: EffectId, count: nat) returns (h: Ghosts)
    requires Inv(w, g) && w.core.poisoned.None? && |w.core.writer.frames| <= |w.core.machine.pending|
    requires w.core.writer.frames != [] ==> w.core.writer.frames[0].written <= w.core.writer.frames[0].wire
    ensures Inv(AdvancedWorld(w, epoch, effect, count), h)
  {
    hide Sound, ReportedWorld, OverReported, Busy;
    h := g;
    var frames := w.core.writer.frames;
    if epoch == w.core.machine.epoch && frames != [] && frames[0].effect == effect {
      var remaining := frames[0].wire - frames[0].written;
      if remaining < count {
        OverKeeps(w, g, WriteProgressContract(count, remaining));
        SoundHealthy(OverReported(w, WriteProgressContract(count, remaining)), g, Loose);
      } else {
        FrontBounds(w, g);
        h := ReportKeeps(w, g, WrittenCount(w.core.machine.pending, frames), count);
      }
    }
  }

  lemma AdvanceSteps(w: World, g: Ghosts, epoch: Epoch, effect: EffectId, count: nat) returns (h: Ghosts)
    requires Inv(w, g)
    ensures Inv(StepAdvance(w, epoch, effect, count), h)
  {
    hide Sound, StepAdvance, AdvancedWorld, Busy;
    if w.core.poisoned.Some? {
      BrokenAdvance(w, g, epoch, effect, count);
      h := g;
    } else {
      AdvanceComputes(w, g, epoch, effect, count);
      h := AdvancedKeeps(w, g, epoch, effect, count);
    }
  }

  /** A broken owner answers reports with its first fault and changes nothing. */
  lemma BrokenAdvance(w: World, g: Ghosts, epoch: Epoch, effect: EffectId, count: nat)
    requires Inv(w, g) && w.core.poisoned.Some?
    ensures StepAdvance(w, epoch, effect, count) == w
  {
    NotPoisoned(w);
    hide Sound;
  }
}