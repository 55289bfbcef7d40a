/** Any owner, however inconsistent, that fails partway through a step can still be recovered: the
    journal taken before the step covers whatever the step had already removed. */
module Faults {
  import opened Primitives
  import opened KeySet
  import opened Ledger
  import opened Operations
  import opened Writer
  import opened Journal
  import opened Recovery
  import opened Core
  import Machine

  // --------------------------------------------------------------- from coverage to recovery

  function UnfinishedRecords(pending: seq<Record>): seq<OperationId> {
    if pending == [] then []
    else
      var last := pending[|pending| - 1];
      UnfinishedRecords(pending[..|pending| - 1]) + (if last.phase.Terminal? then [] else [last.id])
  }

  /** No record became finished, or stopped being so, where it survived. */
  ghost predicate SameEnds(prior: seq<Record>, fates: Fates) {
    |fates| == |prior|
    && forall x :: 0 <= x < |prior| && fates[x].Some? ==> (fates[x].value.phase.Terminal? <==> prior[x].phase.Terminal?)
  }

  /** The journal holds a copy of everything of `prior` that is no longer pending. */
  ghost predicate CoveredBy(prior: seq<Record>, fates: Fates, c: CoreState) {
    && FatesOf(prior, fates) && SameEnds(prior, fates)
    && CopiesPrior(prior, 0, c.journal.operations)
    && Covers(prior, fates, 0, c.journal.operations, JournalIds(c.journal.operations))
    && c.machine.pending == Kept(fates, 0)
  }

  ghost predicate Covered(prior: seq<Record>, c: CoreState) {
    exists fates: Fates :: CoveredBy(prior, fates, c)
  }

  lemma {:induction false} ExpectedSuffix(prior: seq<Record>, fates: Fates, w: nat)
    requires SameEnds(prior, fates) && FatesOf(prior, fates) && w <= |prior|
    ensures |ExpectedFrom(prior, fates, w)| == |prior| - w
    ensures forall x :: w <= x < |prior| ==> ExpectedFrom(prior, fates, w)[x - w] == ExpectedAt(prior, fates, x)
    decreases |prior| - w
  {
    if w < |prior| {
      ExpectedSuffix(prior, fates, w + 1);
      var tail := ExpectedFrom(prior, fates, w + 1);
      forall x | w <= x < |prior| ensures ([ExpectedAt(prior, fates, w)] + tail)[x - w] == ExpectedAt(prior, fates, x) {
        if x > w { assert tail[x - (w + 1)] == ExpectedAt(prior, fates, x); }
      }
    }
  }

  lemma {:induction false} UnfinishedPrefix(prior: seq<Record>, survivors: seq<Survivor>, n: nat)
    requires |survivors| == |prior| && n <= |prior|
    requires forall x :: 0 <= x < |prior| ==>
      survivors[x].Id() == prior[x].id && (survivors[x].Finished() <==> prior[x].phase.Terminal?)
    ensures UnfinishedIds(survivors[..n]) == UnfinishedRecords(prior[..n])
  {
    if n > 0 {
      UnfinishedPrefix(prior, survivors, n - 1);
      assert survivors[..n][..n - 1] == survivors[..n - 1] && prior[..n][..n - 1] == prior[..n - 1];
    }
  }

  lemma MergeUnfinished(prior: seq<Record>, fates: Fates, c: CoreState)
    requires CoveredBy(prior, fates, c)
    ensures UnfinishedIds(Merge(c.journal.operations, c.machine.pending).survivors) == UnfinishedRecords(prior)
  {
    MergeRestoresWireOrder(prior, fates, c.journal.operations);
    ExpectedSuffix(prior, fates, 0);
    var survivors := ExpectedFrom(prior, fates, 0);
    hide Merge, ExpectedFrom, CopiesPrior, Covers, Kept, UnfinishedIds, UnfinishedRecords;
    forall x | 0 <= x < |prior|
      ensures survivors[x].Id() == prior[x].id && (survivors[x].Finished() <==> prior[x].phase.Terminal?)
    {
      assert survivors[x - 0] == ExpectedAt(prior, fates, x);
    }
    UnfinishedPrefix(prior, survivors, |prior|);
    assert survivors[..|prior|] == survivors && prior[..|prior|] == prior;
  }

  /** A covered owner recovers exactly the unfinished operations of the prior list, once each, in
      the original order. */
  lemma CoveredRecovers(prior: seq<Record>, c: CoreState)
    requires Covered(prior, c)
    ensures RecoveredIds(Recover(c).1.operations) == UnfinishedRecords(prior)
  {
    hide Merge, RestoreAll, UnfinishedIds, UnfinishedRecords, CoveredBy, HeldWrites, AllDiscarded;
    var fates: Fates :| CoveredBy(prior, fates, c);
    MergeUnfinished(prior, fates, c);
    var merged := Merge(c.journal.operations, c.machine.pending);
    var start := Restoring(
      AllDiscarded(c.writer.frames) + HeldWrites(c.journal), [], c.machine.ledger,
      c.journal.armed || c.journal.operations != [] || merged.diverged);
    RestoredInOrder(start, merged.survivors);
    assert RecoveredIds([]) == [];
    assert RecoveredIds([]) + UnfinishedIds(merged.survivors) == UnfinishedIds(merged.survivors);
  }

  // --------------------------------------------------------------- the three ways a step covers itself

  function AllKept(prior: seq<Record>): (fates: Fates)
    ensures |fates| == |prior|
    ensures forall x :: 0 <= x < |prior| ==> fates[x] == Some(prior[x])
  {
    seq(|prior|, x requires 0 <= x < |prior| => Some(prior[x]))
  }

  lemma {:induction false} KeptAll(fates: Fates, current: seq<Record>, w: nat)
    requires |fates| == |current| && w <= |current|
    requires forall x :: w <= x < |current| ==> fates[x] == Some(current[x])
    ensures Kept(fates, w) == current[w..]
    decreases |current| - w
  {
    if w < |current| {
      KeptAll(fates, current, w + 1);
      assert current[w..] == [current[w]] + current[w + 1..];
    }
  }

  /** Nothing journaled, or exactly one prior record at its own index. */
  ghost predicate AtMostOne(prior: seq<Record>, journal: seq<JournalOperation>) {
    || journal == []
    || (|journal| == 1 && journal[0].wireIndex < |prior|
        && journal[0] == Entry(prior[journal[0].wireIndex], journal[0].wireIndex))
  }

  lemma OneCopies(prior: seq<Record>, journal: seq<JournalOperation>)
    requires AtMostOne(prior, journal) && DistinctIds(prior)
    ensures CopiesPrior(prior, 0, journal)
    ensures forall x :: 0 <= x < |prior| && prior[x].id in JournalIds(journal) ==> Journaled(journal, x)
    ensures forall j :: 0 <= j < |journal| ==> journal[j].operation in JournalIds(journal)
  {
    if journal != [] {
      var i := journal[0].wireIndex;
      assert JournalIds(journal) == {prior[i].id};
      assert Journaled(journal, i);
    }
  }

  predicate SameEnd(before: Record, after: Record) {
    after.id == before.id && (after.phase.Terminal? <==> before.phase.Terminal?)
  }

  /** The records changed without leaving, and at most one of them was journaled. */
  lemma UpdatedCovered(prior: seq<Record>, c: CoreState)
    requires DistinctIds(prior) && AtMostOne(prior, c.journal.operations)
    requires |c.machine.pending| == |prior|
    requires forall x :: 0 <= x < |prior| ==> SameEnd(prior[x], c.machine.pending[x])
    ensures Covered(prior, c)
  {
    var fates := AllKept(c.machine.pending);
    OneCopies(prior, c.journal.operations);
    KeptAll(fates, c.machine.pending, 0);
    assert CoveredBy(prior, fates, c);
  }

  /** One record left from among records that otherwise only changed. */
  ghost predicate GoneAt(prior: seq<Record>, pending: seq<Record>, i: nat)
    requires i < |prior|
  {
    && |pending| == |prior| - 1
    && (forall x :: 0 <= x < i ==> SameEnd(prior[x], pending[x]))
    && (forall x :: i < x < |prior| ==> SameEnd(prior[x], pending[x - 1]))
  }

  /** Those records with a hole at `i`. */
  function Holed(prior: seq<Record>, pending: seq<Record>, i: nat): (fates: Fates)
    requires i < |prior| && |pending| == |prior| - 1
    ensures |fates| == |prior| && fates[i].None?
    ensures forall x :: 0 <= x < i ==> fates[x] == Some(pending[x])
    ensures forall x :: i < x < |prior| ==> fates[x] == Some(pending[x - 1])
  {
    seq(|prior|, x requires 0 <= x < |prior| =>
      if x < i then Some(pending[x]) else if x == i then None else Some(pending[x - 1]))
  }

  lemma {:induction false} KeptHoled(prior: seq<Record>, pending: seq<Record>, i: nat, w: nat)
    requires i < |prior| && |pending| == |prior| - 1 && w <= |prior|
    ensures Kept(Holed(prior, pending, i), w) == pending[if w <= i then w else w - 1..]
    decreases |prior| - w
  {
    if w < |prior| {
      KeptHoled(prior, pending, i, w + 1);
    }
  }

  lemma HoledFates(prior: seq<Record>, pending: seq<Record>, i: nat)
    requires DistinctIds(prior) && i < |prior| && GoneAt(prior, pending, i)
    ensures FatesOf(prior, Holed(prior, pending, i)) && SameEnds(prior, Holed(prior, pending, i))
  {
  }

  /** One journaled record left. */
  lemma RemovedCovered(prior: seq<Record>, i: nat, c: CoreState)
    requires DistinctIds(prior) && i < |prior|
    requires c.journal.operations == [Entry(prior[i], i)] && GoneAt(prior, c.machine.pending, i)
    ensures Covered(prior, c)
  {
    var fates := Holed(prior, c.machine.pending, i);
    HoledFates(prior, c.machine.pending, i);
    OneCopies(prior, c.journal.operations);
    KeptHoled(prior, c.machine.pending, i, 0);
    assert Journaled(c.journal.operations, i) by { assert c.journal.operations[0].wireIndex == i; }
    hide CopiesPrior, Journaled, JournalIds, FatesOf, SameEnds;
    assert CoveredBy(prior, fates, c);
  }

  /** Every record was journaled, and none is left. */
  lemma EmptiedCovered(prior: seq<Record>, c: CoreState)
    requires DistinctIds(prior) && c.journal.operations == Entries(prior) && c.machine.pending == []
    ensures Covered(prior, c)
  {
    var fates: Fates := seq(|prior|, _ => None);
    AllCopied(prior);
    KeptNone(fates, 0);
    hide CopiesPrior, JournalIds, Journaled;
    assert CoveredBy(prior, fates, c);
  }

  lemma AllCopied(prior: seq<Record>)
    ensures CopiesPrior(prior, 0, Entries(prior))
    ensures forall x :: 0 <= x < |prior| ==> Journaled(Entries(prior), x)
    ensures forall j :: 0 <= j < |prior| ==> Entries(prior)[j].operation in JournalIds(Entries(prior))
  {
    forall x | 0 <= x < |prior| ensures Journaled(Entries(prior), x) {
      assert Entries(prior)[x].wireIndex == x;
    }
  }

  lemma {:induction false} KeptNone(fates: Fates, w: nat)
    requires w <= |fates| && forall x :: 0 <= x < |fates| ==> fates[x].None?
    ensures Kept(fates, w) == []
    decreases |fates| - w
  {
    if w < |fates| { KeptNone(fates, w + 1); }
  }

  /** Every record was journaled, and all are still there. */
  lemma FullCovered(prior: seq<Record>, c: CoreState)
    requires DistinctIds(prior) && c.journal.operations == Entries(prior) && c.machine.pending == prior
    ensures Covered(prior, c)
  {
    var fates := AllKept(prior);
    AllCopied(prior);
    KeptAll(fates, prior, 0);
    hide CopiesPrior, JournalIds, Journaled;
    assert CoveredBy(prior, fates, c);
  }

  // --------------------------------------------------------------- what reconciliation leaves alone

  lemma {:induction false} ReconcileKeepsPolicy(c: CoreState, effects: seq<Effect>)
    ensures var after := Reconcile(c, effects).0;
      after.machine == c.machine && after.journal.operations == c.journal.operations
    decreases |effects|
  {
    if effects != [] {
      if effects[0].DiscardWrite? {
        ReconcileKeepsPolicy(ReconcileDiscard(c, effects[0].epoch, effects[0].effect, effects[0].operation).0, effects[1..]);
      } else {
        ReconcileKeepsPolicy(c, effects[1..]);
      }
    }
  }

  lemma SettleKeepsPolicy(c: CoreState, t: Transition)
    ensures Settle(c, t).1.Failure? ==>
      Settle(c, t).0.machine == c.machine && Settle(c, t).0.journal.operations == c.journal.operations
  {
    ReconcileKeepsPolicy(c, t.effects);
    hide Reconcile;
  }

  lemma {:induction false} NoDiscardReconciles(c: CoreState, effects: seq<Effect>)
    requires forall j :: 0 <= j < |effects| ==> !effects[j].DiscardWrite?
    ensures Reconcile(c, effects) == (c, Success(effects))
    decreases |effects|
  {
    if effects != [] {
      NoDiscardReconciles(c, effects[1..]);
      assert [effects[0]] + effects[1..] == effects;
    }
  }

  /** A step that touched neither a frame nor the ledger cannot fail once its checks passed. */
  lemma QuietSucceeds(c: CoreState, t: Transition)
    requires !c.machine.ledger.poisoned && c.poisoned.None?
    requires forall j :: 0 <= j < |t.effects| ==> !t.effects[j].DiscardWrite?
    ensures Settle(c, t).1.Success?
  {
    NoDiscardReconciles(c, t.effects);
  }

  // --------------------------------------------------------------- inputs

  /** Ready to start a step: records apart, no journal left over. */
  ghost predicate Fresh(c: CoreState) {
    DistinctIds(c.machine.pending) && c.journal == Cleared(c.journal)
  }

  lemma CheckKeeps(c: CoreState)
    ensures Check(c).0.machine == c.machine && Check(c).0.journal == c.journal && Check(c).0.writer == c.writer
    ensures Check(c).1.None? ==> Check(c).0 == c && !c.machine.ledger.poisoned && c.poisoned.None?
  {
    hide Violation;
  }

  lemma UntouchedCovered(prior: seq<Record>, c: CoreState)
    requires DistinctIds(prior) && AtMostOne(prior, c.journal.operations) && c.machine.pending == prior
    ensures Covered(prior, c)
  {
    UpdatedCovered(prior, c);
  }

  /** What the journal holds once a step was prepared. */
  ghost predicate Journals(prior: seq<Record>, journal: seq<JournalOperation>) {
    AtMostOne(prior, journal) || journal == Entries(prior)
  }

  lemma PrepareKeeps(c: CoreState, input: Input)
    requires Fresh(c)
    ensures var after := PrepareInput(c, input).0;
      after.machine == c.machine && after.writer == c.writer && Journals(c.machine.pending, after.journal.operations)
      && (PrepareInput(c, input).1.None? ==> after.poisoned == c.poisoned)
  {
  }

  lemma SameCovered(prior: seq<Record>, c: CoreState)
    requires DistinctIds(prior) && Journals(prior, c.journal.operations) && c.machine.pending == prior
    ensures Covered(prior, c)
  {
    if AtMostOne(prior, c.journal.operations) { UntouchedCovered(prior, c); } else { FullCovered(prior, c); }
  }

  lemma CancelCovered(c: CoreState, epoch: Epoch, operation: OperationId)
    requires Fresh(c) && Core.Apply(c, Cancel(epoch, operation)).1.Failure?
    ensures Covered(c.machine.pending, Core.Apply(c, Cancel(epoch, operation)).0)
  {
    var input, prior := Cancel(epoch, operation), c.machine.pending;
    CheckKeeps(c);
    PrepareKeeps(c, input);
    if Check(c).1.Some? || PrepareInput(c, input).1.Some? {
      hide Covered, Machine.Apply, Settle, PrepareInput;
      SameCovered(prior, Core.Apply(c, input).0);
    } else {
      var c2 := PrepareInput(c, input).0;
      var (m, t) := Machine.Apply(c.machine, input);
      var index := IndexOf(prior, operation);
      SettleKeepsPolicy(c2.(machine := m), t);
      if epoch == c.machine.epoch && index.Some? && !prior[index.value].phase.Terminal? {
        if prior[index.value].delivery.NotSent? {
          assert m.pending == RemoveAt(prior, index.value);
          hide Covered, Settle;
          RemovedCovered(prior, index.value, Core.Apply(c, input).0);
        } else {
          QuietSucceeds(c2.(machine := m), t);
          assert false;
        }
      } else {
        hide Covered, Settle;
        SameCovered(prior, Core.Apply(c, input).0);
      }
    }
  }

  lemma DeadlineCovered(c: CoreState, epoch: Epoch, operation: OperationId, now: Moment)
    requires Fresh(c) && Core.Apply(c, DeadlineReached(epoch, operation, now)).1.Failure?
    ensures Covered(c.machine.pending, Core.Apply(c, DeadlineReached(epoch, operation, now)).0)
  {
    var input, prior := DeadlineReached(epoch, operation, now), c.machine.pending;
    CheckKeeps(c);
    PrepareKeeps(c, input);
    if Check(c).1.Some? || PrepareInput(c, input).1.Some? {
      hide Covered, Machine.Apply, Settle, PrepareInput;
      SameCovered(prior, Core.Apply(c, input).0);
    } else {
      var c2 := PrepareInput(c, input).0;
      var (m, t) := Machine.Apply(c.machine, input);
      var index := IndexOf(prior, operation);
      SettleKeepsPolicy(c2.(machine := m), t);
      hide Covered, Settle;
      if epoch != c.machine.epoch || index.None? || now < prior[index.value].deadline {
        SameCovered(prior, Core.Apply(c, input).0);
      } else if prior[index.value].delivery.NotSent? {
        assert m.pending == RemoveAt(prior, index.value);
        RemovedCovered(prior, index.value, Core.Apply(c, input).0);
      } else if c.machine.phase.Live? {
        EmptiedCovered(prior, Core.Apply(c, input).0);
      } else {
        SameCovered(prior, Core.Apply(c, input).0);
      }
    }
  }

  lemma RestCovered(c: CoreState, input: Input)
    requires Fresh(c) && !input.Cancel? && !input.DeadlineReached? && Core.Apply(c, input).1.Failure?
    ensures Covered(c.machine.pending, Core.Apply(c, input).0)
  {
    var prior := c.machine.pending;
    CheckKeeps(c);
    PrepareKeeps(c, input);
    if Check(c).1.Some? || PrepareInput(c, input).1.Some? {
      hide Covered, Machine.Apply, Settle, PrepareInput;
      SameCovered(prior, Core.Apply(c, input).0);
    } else {
      var c2 := PrepareInput(c, input).0;
      var (m, t) := Machine.Apply(c.machine, input);
      SettleKeepsPolicy(c2.(machine := m), t);
      hide Covered, Settle;
      if m.pending == prior {
        SameCovered(prior, Core.Apply(c, input).0);
      } else {
        EmptiedCovered(prior, Core.Apply(c, input).0);
      }
    }
  }

  /** Whatever input fails, in whatever inconsistent owner, recovery still returns every unfinished
      operation it had, in order. */
  lemma FailedInputRecovers(c: CoreState, input: Input)
    requires Fresh(c) && Core.Apply(c, input).1.Failure?
    ensures RecoveredIds(Recover(Core.Apply(c, input).0).1.operations) == UnfinishedRecords(c.machine.pending)
  {
    hide Core.Apply, Covered, Recover, UnfinishedRecords;
    match input
    case Cancel(epoch, operation) =>
      CancelCovered(c, epoch, operation);
      CoveredRecovers(c.machine.pending, Core.Apply(c, input).0);
    case DeadlineReached(epoch, operation, now) =>
      DeadlineCovered(c, epoch, operation, now);
      CoveredRecovers(c.machine.pending, Core.Apply(c, input).0);
    case _ =>
      RestCovered(c, input);
      CoveredRecovers(c.machine.pending, Core.Apply(c, input).0);
  }

  // --------------------------------------------------------------- journaled beforehand

  /** Every record that left was journaled at its own wire index. */
  ghost predicate RemovedJournaled(prior: seq<Record>, after: seq<Record>, journal: seq<JournalOperation>) {
    forall i :: 0 <= i < |prior| && IndexOf(after, prior[i].id).None? ==> Entry(prior[i], i) in journal
  }

  lemma NoneRemoved(prior: seq<Record>, after: seq<Record>, journal: seq<JournalOperation>)
    requires |after| == |prior| && forall i :: 0 <= i < |prior| ==> after[i].id == prior[i].id
    ensures RemovedJournaled(prior, after, journal)
  {
  }

  lemma OneRemoved(prior: seq<Record>, after: seq<Record>, i: nat, journal: seq<JournalOperation>)
    requires i < |prior| && |after| == |prior| && journal == [Entry(prior[i], i)]
    requires forall j :: 0 <= j < |prior| ==> after[j].id == prior[j].id
    ensures RemovedJournaled(prior, RemoveAt(after, i), journal)
  {
    forall j | 0 <= j < |prior| && j != i ensures IndexOf(RemoveAt(after, i), prior[j].id).Some? {
      assert RemoveAt(after, i)[if j < i then j else j - 1].id == prior[j].id;
    }
  }

  lemma AllJournaled(prior: seq<Record>, after: seq<Record>)
    ensures RemovedJournaled(prior, after, Entries(prior))
  {
    forall i | 0 <= i < |prior| ensures Entry(prior[i], i) in Entries(prior) {
      assert Entries(prior)[i] == Entry(prior[i], i);
    }
  }

  /** Whatever record an input removes was journaled before the policy moved, in any owner. */
  lemma InputJournaled(c: CoreState, input: Input)
    requires PrepareInput(c, input).1.None?
    ensures RemovedJournaled(c.machine.pending, Machine.Apply(c.machine, input).0.pending,
        PrepareInput(c, input).0.journal.operations)
  {
    hide RemovedJournaled, IndexOf, Begin, BeginOperation, Machine.ReleaseEach, Release, Machine.CloseEffects;
    var prior, after := c.machine.pending, Machine.Apply(c.machine, input).0.pending;
    AllJournaled(prior, after);
    match input
    case Cancel(epoch, operation) => CancelJournaled(c, epoch, operation);
    case DeadlineReached(epoch, operation, now) => DeadlineJournaled(c, epoch, operation, now);
    case _ =>
      BegunJournal(c);
      if PrepareInput(c, input).0.journal.operations != Entries(prior) {
        NoneRemoved(prior, after, PrepareInput(c, input).0.journal.operations);
      }
  }

  /** A journal that was begun holds every record. */
  lemma BegunJournal(c: CoreState)
    ensures BeginJournal(c).1.None? ==> BeginJournal(c).0.journal.operations == Entries(c.machine.pending)
  {
  }

  lemma BegunOperation(c: CoreState, operation: OperationId)
    requires BeginOperationJournal(c, operation).1.None?
    ensures var at := IndexOf(c.machine.pending, operation);
      BeginOperationJournal(c, operation).0.journal.operations
        == if at.Some? then [Entry(c.machine.pending[at.value], at.value)] else c.journal.operations
  {
    hide IndexOf;
  }

  lemma CancelJournaled(c: CoreState, epoch: Epoch, operation: OperationId)
    requires PrepareInput(c, Cancel(epoch, operation)).1.None?
    ensures RemovedJournaled(c.machine.pending, Machine.CancelOperation(c.machine, epoch, operation).0.pending,
                             PrepareInput(c, Cancel(epoch, operation)).0.journal.operations)
  {
    hide RemovedJournaled, IndexOf, BeginOperationJournal, Machine.CloseEffects, Machine.ReleaseEach, Release;
    var prior, at := c.machine.pending, IndexOf(c.machine.pending, operation);
    var after := Machine.CancelOperation(c.machine, epoch, operation).0.pending;
    if epoch != c.machine.epoch || at.None? || prior[at.value].phase.Terminal? || !prior[at.value].delivery.NotSent? {
      NoneRemoved(prior, after, PrepareInput(c, Cancel(epoch, operation)).0.journal.operations);
    } else {
      BegunOperation(c, operation);
      OneRemoved(prior, prior, at.value, [Entry(prior[at.value], at.value)]);
    }
  }

  lemma DeadlineJournaled(c: CoreState, epoch: Epoch, operation: OperationId, now: Moment)
    requires PrepareInput(c, DeadlineReached(epoch, operation, now)).1.None?
    ensures RemovedJournaled(c.machine.pending, Machine.ReachDeadline(c.machine, epoch, operation, now).0.pending,
                             PrepareInput(c, DeadlineReached(epoch, operation, now)).0.journal.operations)
  {
    hide RemovedJournaled, IndexOf, BeginJournal, BeginOperationJournal, Machine.CloseEffects, Machine.ReleaseEach, Release;
    var prior, at := c.machine.pending, IndexOf(c.machine.pending, operation);
    var after := Machine.ReachDeadline(c.machine, epoch, operation, now).0.pending;
    if epoch != c.machine.epoch || at.None? || now < prior[at.value].deadline {
      NoneRemoved(prior, after, c.journal.operations);
    } else if prior[at.value].delivery.PossiblySent? {
      BegunJournal(c);
      AllJournaled(prior, after);
    } else {
      BegunOperation(c, operation);
      OneRemoved(prior, prior, at.value, [Entry(prior[at.value], at.value)]);
    }
  }

  /** So was whatever record a reply removes. */
  lemma ReplyJournaled(c: CoreState, reply: InboundReply)
    requires PrepareReply(c, reply).1.None?
    ensures RemovedJournaled(c.machine.pending, Machine.ApplyReply(c.machine, reply).0.pending,
        PrepareReply(c, reply).0.journal.operations)
  {
    hide RemovedJournaled;
    var prior, after, journal := c.machine.pending, Machine.ApplyReply(c.machine, reply).0.pending,
      PrepareReply(c, reply).0.journal.operations;
    AllJournaled(prior, after);
    if journal != Entries(prior) {
      if |after| == |prior| {
        NoneRemoved(prior, after, journal);
      } else {
        OneRemoved(prior, prior, 0, journal);
      }
    }
  }

  /** And so was the record a completed frame removes, whatever the report changed before. */
  lemma CompletionJournaledFirst(c: CoreState, q: QueuedWrite, m: Machine.MachineState, epoch: Epoch)
    requires c.journal.operations == [] && JournalCompletion(c, q).1.None? && SameRecords(c.machine.pending, m.pending)
    ensures RemovedJournaled(c.machine.pending, Machine.WriteCompleted(m, epoch, q.operation, q.effect).0.pending,
                             JournalCompletion(c, q).0.journal.operations)
  {
    var prior, after := c.machine.pending, Machine.WriteCompleted(m, epoch, q.operation, q.effect).0.pending;
    CompletionJournals(c, q);
    SameRecordsIndex(prior, m.pending, q.operation);
    hide RemovedJournaled, JournalCompletion, IndexOf;
    if |after| == |prior| {
      NoneRemoved(prior, after, JournalCompletion(c, q).0.journal.operations);
    } else {
      OneRemoved(prior, m.pending, IndexOf(prior, q.operation).value, JournalCompletion(c, q).0.journal.operations);
    }
  }

  // --------------------------------------------------------------- replies

  lemma PrepareReplyKeeps(c: CoreState, reply: InboundReply)
    requires Fresh(c)
    ensures var after := PrepareReply(c, reply).0;
      after.machine == c.machine && after.writer == c.writer && Journals(c.machine.pending, after.journal.operations)
  {
  }

  lemma ReplyCovered(c: CoreState, reply: InboundReply)
    requires Fresh(c) && Core.ApplyReply(c, reply).1.Failure?
    ensures Covered(c.machine.pending, Core.ApplyReply(c, reply).0)
  {
    var prior := c.machine.pending;
    CheckKeeps(c);
    PrepareReplyKeeps(c, reply);
    if Check(c).1.Some? || PrepareReply(c, reply).1.Some? {
      hide Covered, Machine.ApplyReply, Settle, PrepareReply;
      SameCovered(prior, Core.ApplyReply(c, reply).0);
    } else {
      var c2 := PrepareReply(c, reply).0;
      var (m, t) := Machine.ApplyReply(c.machine, reply);
      SettleKeepsPolicy(c2.(machine := m), t);
      hide Covered, Settle;
      if m.pending == prior {
        SameCovered(prior, Core.ApplyReply(c, reply).0);
      } else if m.pending == [] && c2.journal.operations == Entries(prior) {
        EmptiedCovered(prior, Core.ApplyReply(c, reply).0);
      } else {
        FrontJournaled(c, reply);
        RemovedCovered(prior, 0, Core.ApplyReply(c, reply).0);
      }
    }
  }

  lemma FrontJournaled(c: CoreState, reply: InboundReply)
    requires Fresh(c) && PrepareReply(c, reply).1.None?
    requires Machine.ApplyReply(c.machine, reply).0.pending != c.machine.pending
    requires !(Machine.ApplyReply(c.machine, reply).0.pending == [] && PrepareReply(c,
        reply).0.journal.operations == Entries(c.machine.pending))
    ensures c.machine.pending != [] && PrepareReply(c, reply).0.journal.operations == [Entry(c.machine.pending[0], 0)]
    ensures Machine.ApplyReply(c.machine, reply).0.pending == RemoveAt(c.machine.pending, 0)
  {
    if c.machine.pending != [] {
      assert IndexOf(c.machine.pending, c.machine.pending[0].id) == Some(0);
    }
  }

  lemma FailedReplyRecovers(c: CoreState, reply: InboundReply)
    requires Fresh(c) && Core.ApplyReply(c, reply).1.Failure?
    ensures RecoveredIds(Recover(Core.ApplyReply(c, reply).0).1.operations) == UnfinishedRecords(c.machine.pending)
  {
    hide Core.ApplyReply, Covered, Recover, UnfinishedRecords;
    ReplyCovered(c, reply);
    CoveredRecovers(c.machine.pending, Core.ApplyReply(c, reply).0);
  }

  // --------------------------------------------------------------- write progress

  ghost predicate Changed(prior: seq<Record>, c: CoreState) {
    && |c.machine.pending| == |prior| && AtMostOne(prior, c.journal.operations)
    && (forall x :: 0 <= x < |prior| ==> SameEnd(prior[x], c.machine.pending[x]))
  }

  /** The policy's records after a report, which may have journaled the one it completed. */
  ghost predicate Followed(prior: seq<Record>, c: CoreState) {
    || Changed(prior, c)
    || (exists i: nat :: i < |prior| && c.journal.operations == [Entry(prior[i], i)] && GoneAt(prior, c.machine.pending, i))
  }

  lemma FollowedCovered(prior: seq<Record>, c: CoreState)
    requires DistinctIds(prior) && Followed(prior, c)
    ensures Covered(prior, c)
  {
    hide Covered, GoneAt, DistinctIds;
    if Changed(prior, c) {
      UpdatedCovered(prior, c);
    } else {
      var i: nat :| i < |prior| && c.journal.operations == [Entry(prior[i], i)] && GoneAt(prior, c.machine.pending, i);
      RemovedCovered(prior, i, c);
    }
  }

  lemma StartKeeps(c: CoreState, epoch: Epoch, operation: OperationId, effect: EffectId, crossed: bool)
    ensures var after := AbsorbStart(c, epoch, operation, effect, crossed).0;
      SameRecords(c.machine.pending, after.machine.pending) && after.journal == c.journal
  {
  }

  /** Same records in the same places, none newly finished. */
  ghost predicate SameRecords(prior: seq<Record>, pending: seq<Record>) {
    |pending| == |prior| && forall x :: 0 <= x < |prior| ==> SameEnd(prior[x], pending[x])
  }

  lemma SameRecordsIndex(prior: seq<Record>, pending: seq<Record>, id: OperationId)
    requires SameRecords(prior, pending)
    ensures IndexOf(pending, id) == IndexOf(prior, id)
  {
    var a, b := IndexOf(prior, id), IndexOf(pending, id);
    if a.Some? { assert SameEnd(prior[a.value], pending[a.value]); }
    if b.Some? { assert SameEnd(prior[b.value], pending[b.value]); }
  }

  /** A completed frame removes or changes exactly the record the journal copied. */
  lemma CompletionFollows(
    prior: seq<Record>, c: CoreState, so: seq<Effect>, epoch: Epoch, operation: OperationId, effect: EffectId, i: nat)
    requires SameRecords(prior, c.machine.pending) && i < |prior| && IndexOf(prior, operation) == Some(i)
    requires c.journal.operations == [Entry(prior[i], i)]
    ensures Followed(prior, AbsorbCompletion(c, so, epoch, operation, effect, true).0)
  {
    SameRecordsIndex(prior, c.machine.pending, operation);
    var (m, t) := Machine.WriteCompleted(c.machine, epoch, operation, effect);
    var after := AbsorbCompletion(c, so, epoch, operation, effect, true).0;
    ReconcileKeepsPolicy(c.(machine := m), t.effects);
    assert after.machine.pending == m.pending && after.journal.operations == c.journal.operations by {
      hide Reconcile, Machine.WriteCompleted;
    }
    hide AbsorbCompletion, Reconcile, Release, ReleaseWrite, IndexOf;
    if |m.pending| == |prior| {
      assert Changed(prior, after);
    } else {
      assert m.pending == RemoveAt(c.machine.pending, i);
      assert GoneAt(prior, after.machine.pending, i);
    }
  }

  /** The journal holds exactly the record of this operation. */
  predicate JournalsOne(pending: seq<Record>, operation: OperationId, journal: seq<JournalOperation>) {
    var index := IndexOf(pending, operation);
    index.Some? && journal == [Entry(pending[index.value], index.value)]
  }

  lemma FollowFollows(prior: seq<Record>, c: CoreState, epoch: Epoch, effect: EffectId, operation: OperationId,
      crossed: bool, complete: bool)
    requires c.machine.pending == prior
    requires if complete then JournalsOne(prior, operation, c.journal.operations) else c.journal.operations == []
    ensures Follow(c, epoch, effect, operation, crossed, complete).1.Failure? ==>
      Followed(prior, Follow(c, epoch, effect, operation, crossed, complete).0)
  {
    StartKeeps(c, epoch, operation, effect, crossed);
    var (c1, started) := AbsorbStart(c, epoch, operation, effect, crossed);
    assert Changed(prior, c1);
    hide AbsorbStart, AbsorbCompletion, IndexOf, SameEnd, Changed;
    if started.Success? {
      if complete {
        CompletionFollows(prior, c1, started.value, epoch, operation, effect, IndexOf(prior, operation).value);
      } else {
        NotComplete(c1, started.value, epoch, operation, effect);
      }
      var (c2, effects) := AbsorbCompletion(c1, started.value, epoch, operation, effect, complete);
      if effects.Success? { FinishFollows(prior, c2, Transition(Applied, None, effects.value)); }
      hide Followed, Finish;
    }
  }

  lemma FinishFollows(prior: seq<Record>, c: CoreState, t: Transition)
    requires Followed(prior, c)
    ensures Finish(c, t).1.Failure? ==> Followed(prior, Finish(c, t).0)
  {
    hide SameEnd, GoneAt;
  }

  lemma NotComplete(c: CoreState, so: seq<Effect>, epoch: Epoch, operation: OperationId, effect: EffectId)
    ensures AbsorbCompletion(c, so, epoch, operation, effect, false) == (c, Success(so))
  {
  }

  lemma CompletionJournals(c: CoreState, q: QueuedWrite)
    requires c.journal.operations == []
    ensures var (after, error) := JournalCompletion(c, q);
      after.machine == c.machine
      && (error.Some? ==> after.journal.operations == [])
      && (error.None? ==> JournalsOne(c.machine.pending, q.operation, after.journal.operations))
  {
  }

  lemma AdvanceCovered(c: CoreState, epoch: Epoch, effect: EffectId, count: nat)
    requires Fresh(c) && AdvanceWrite(c, epoch, effect, count).1.Failure?
    ensures Covered(c.machine.pending, AdvanceWrite(c, epoch, effect, count).0)
  {
    var prior := c.machine.pending;
    var after := AdvanceWrite(c, epoch, effect, count).0;
    if Health(c).1.Some? {
      UntouchedCovered(prior, after);
    } else {
      var (writer, progress) := Advance(c.writer, epoch, effect, count);
      var c2 := c.(journal := BeginProgress(c.journal), writer := writer);
      hide Advance, Covered, Follow, JournalCompletion;
      if progress.Failure? {
        UntouchedCovered(prior, after);
      } else if progress.value.Pending? {
        FollowFollows(prior, c2, epoch, effect, progress.value.operation, progress.value.crossed, false);
        FollowedCovered(prior, after);
      } else {
        CompletedIdentity(c.writer, epoch, effect, count);
        CompletionJournals(c2, progress.value.frame);
        var (c3, error) := JournalCompletion(c2, progress.value.frame);
        if error.Some? {
          UntouchedCovered(prior, after);
        } else {
          FollowFollows(prior, c3, epoch, effect, progress.value.operation, progress.value.crossed, true);
          FollowedCovered(prior, after);
        }
      }
    }
  }

  lemma CompletedIdentity(writer: WriterState, epoch: Epoch, effect: EffectId, count: nat)
    ensures var r := Advance(writer, epoch, effect, count).1;
      r.Success? && r.value.Complete? ==> r.value.frame.operation == r.value.operation
  {
  }

  lemma FailedReportRecovers(c: CoreState, epoch: Epoch, effect: EffectId, count: nat)
    requires Fresh(c) && AdvanceWrite(c, epoch, effect, count).1.Failure?
    ensures RecoveredIds(Recover(AdvanceWrite(c, epoch, effect, count).0).1.operations)
      == UnfinishedRecords(c.machine.pending)
  {
    hide AdvanceWrite, Covered, Recover, UnfinishedRecords;
    AdvanceCovered(c, epoch, effect, count);
    CoveredRecovers(c.machine.pending, AdvanceWrite(c, epoch, effect, count).0);
  }

  // --------------------------------------------------------------- frames

  /** The owner still has this frame, queued or journaled. */
  ghost predicate Owns(c: CoreState, q: QueuedWrite) {
    exists x :: x in AllDiscarded(c.writer.frames) + HeldWrites(c.journal) && IsFrame(x, q)
  }

  predicate IsFrame(x: DiscardedWrite, q: QueuedWrite) {
    x.operation == q.operation && x.effect == q.effect && x.frame == q.frame
  }

  lemma OwnsQueued(c: CoreState, q: QueuedWrite)
    requires q in c.writer.frames
    ensures Owns(c, q)
  {
    var i :| 0 <= i < |c.writer.frames| && c.writer.frames[i] == q;
    assert AllDiscarded(c.writer.frames)[i] == AsDiscarded(q);
    assert AsDiscarded(q) in AllDiscarded(c.writer.frames) + HeldWrites(c.journal);
  }

  lemma OwnsHeld(c: CoreState, q: QueuedWrite, x: DiscardedWrite)
    requires x in HeldWrites(c.journal) && IsFrame(x, q)
    ensures Owns(c, q)
  {
    assert x in AllDiscarded(c.writer.frames) + HeldWrites(c.journal);
  }

  /** Storing a frame in the journal loses nothing, even past its capacity. */
  lemma RetainHolds(j: JournalState, write: DiscardedWrite)
    requires j.overflow.None?
    ensures write in HeldWrites(RetainWrite(j, write).0)
    ensures forall x :: x in HeldWrites(j) ==> x in HeldWrites(RetainWrite(j, write).0)
    ensures RetainWrite(j, write).1 ==> RetainWrite(j, write).0.overflow.None?
  {
    var after := RetainWrite(j, write).0;
    if RetainWrite(j, write).1 {
      assert after.writes[|after.writes| - 1] == write;
    } else {
      assert HeldWrites(after)[|after.writes|] == write;
    }
  }

  lemma MovedOwns(c: CoreState, epoch: Epoch, effect: EffectId, after: CoreState, q: QueuedWrite)
    requires Owns(c, q) && c.journal.overflow.None?
    requires var (writer, r) := Discard(c.writer, epoch, effect);
      r.Success? && r.value.Some? && after.writer == writer && after.journal == RetainWrite(c.journal, r.value.value).0
    ensures Owns(after, q)
  {
    var d := Discard(c.writer, epoch, effect).1.value.value;
    var x :| x in AllDiscarded(c.writer.frames) + HeldWrites(c.journal) && IsFrame(x, q);
    RetainHolds(c.journal, d);
    if x in HeldWrites(c.journal) {
      OwnsHeld(after, q, x);
    } else {
      DiscardSplits(c.writer, epoch, effect, x);
      if x == d { OwnsHeld(after, q, x); }
      else { assert x in AllDiscarded(after.writer.frames) + HeldWrites(after.journal); }
    }
  }

  lemma DiscardOwns(c: CoreState, epoch: Epoch, effect: EffectId, operation: OperationId, q: QueuedWrite)
    requires Owns(c, q) && c.journal.overflow.None?
    ensures Owns(ReconcileDiscard(c, epoch, effect, operation).0, q)
    ensures ReconcileDiscard(c, epoch, effect, operation).1.None? ==>
      ReconcileDiscard(c, epoch, effect, operation).0.journal.overflow.None?
  {
    var (writer, r) := Discard(c.writer, epoch, effect);
    var after := ReconcileDiscard(c, epoch, effect, operation).0;
    if r.Success? && r.value.Some? {
      assert after.writer == writer && after.journal == RetainWrite(c.journal, r.value.value).0;
      hide ReconcileDiscard;
      MovedOwns(c, epoch, effect, after, q);
    } else {
      assert after.writer == c.writer && after.journal == c.journal;
      hide ReconcileDiscard;
      SameOwner(c, after, q);
    }
  }

  lemma DiscardSplits(writer: WriterState, epoch: Epoch, effect: EffectId, x: DiscardedWrite)
    requires x in AllDiscarded(writer.frames)
    requires Discard(writer, epoch, effect).1.Success? && Discard(writer, epoch, effect).1.value.Some?
    ensures x == Discard(writer, epoch, effect).1.value.value || x in AllDiscarded(Discard(writer, epoch, effect).0.frames)
  {
    var i := IndexOfEffect(writer.frames, effect).value;
    var j :| 0 <= j < |writer.frames| && AllDiscarded(writer.frames)[j] == x;
    if j != i {
      assert AllDiscarded(RemoveAt(writer.frames, i))[if j < i then j else j - 1] == x;
    }
  }

  lemma {:induction false} ReconcileOwns(c: CoreState, effects: seq<Effect>, q: QueuedWrite)
    requires Owns(c, q) && c.journal.overflow.None?
    ensures Owns(Reconcile(c, effects).0, q)
    decreases |effects|
  {
    hide Owns;
    if effects != [] {
      if effects[0].DiscardWrite? {
        DiscardOwns(c, effects[0].epoch, effects[0].effect, effects[0].operation, q);
        hide ReconcileDiscard;
        var (c1, error) := ReconcileDiscard(c, effects[0].epoch, effects[0].effect, effects[0].operation);
        if error.None? { ReconcileOwns(c1, effects[1..], q); }
      } else {
        ReconcileOwns(c, effects[1..], q);
      }
    }
  }

  /** An owner whose step failed has lost no frame. */
  lemma FailedInputOwns(c: CoreState, input: Input, q: QueuedWrite)
    requires Fresh(c) && q in c.writer.frames && Core.Apply(c, input).1.Failure?
    ensures Owns(Core.Apply(c, input).0, q)
  {
    CheckKeeps(c);
    PrepareOwns(c, input, q);
    if Check(c).1.Some? {
      OwnsQueued(Check(c).0, q);
    } else if PrepareInput(c, input).1.None? {
      var c2 := PrepareInput(c, input).0;
      var (m, t) := Machine.Apply(c2.machine, input);
      hide Owns, PrepareInput, Machine.Apply, Reconcile, Check;
      SameOwner(c2, c2.(machine := m), q);
      ReconcileOwns(c2.(machine := m), t.effects, q);
      SettleOwns(c2.(machine := m), t, q);
    }
  }

  lemma PrepareOwns(c: CoreState, input: Input, q: QueuedWrite)
    requires Fresh(c) && q in c.writer.frames
    ensures Owns(PrepareInput(c, input).0, q) && PrepareInput(c, input).0.journal.overflow.None?
  {
    PrepareKeeps(c, input);
    OwnsQueued(PrepareInput(c, input).0, q);
    hide Owns;
  }

  lemma SameOwner(c: CoreState, after: CoreState, q: QueuedWrite)
    requires Owns(c, q) && after.writer == c.writer && HeldWrites(after.journal) == HeldWrites(c.journal)
    ensures Owns(after, q)
  {
  }

  lemma SettleOwns(c: CoreState, t: Transition, q: QueuedWrite)
    requires Owns(Reconcile(c, t.effects).0, q) && Settle(c, t).1.Failure?
    ensures Owns(Settle(c, t).0, q)
  {
    var c1 := Reconcile(c, t.effects).0;
    hide Reconcile, Owns;
    SameOwner(c1, Settle(c, t).0, q);
  }

  lemma FailedReplyOwns(c: CoreState, reply: InboundReply, q: QueuedWrite)
    requires Fresh(c) && q in c.writer.frames && Core.ApplyReply(c, reply).1.Failure?
    ensures Owns(Core.ApplyReply(c, reply).0, q)
  {
    CheckKeeps(c);
    PrepareReplyKeeps(c, reply);
    var c2 := PrepareReply(c, reply).0;
    OwnsQueued(c2, q);
    assert c2.journal.overflow.None?;
    if Check(c).1.Some? {
      OwnsQueued(Check(c).0, q);
    } else if PrepareReply(c, reply).1.None? {
      var (m, t) := Machine.ApplyReply(c2.machine, reply);
      hide Owns, PrepareReply, Machine.ApplyReply, Reconcile, Check;
      SameOwner(c2, c2.(machine := m), q);
      ReconcileOwns(c2.(machine := m), t.effects, q);
      SettleOwns(c2.(machine := m), t, q);
    }
  }

  lemma FinishOwns(c: CoreState, t: Transition, q: QueuedWrite)
    requires Owns(c, q) && Finish(c, t).1.Failure?
    ensures Owns(Finish(c, t).0, q)
  {
    hide Owns;
    SameOwner(c, Finish(c, t).0, q);
  }

  lemma AbsorbOwns(
    c: CoreState, so: seq<Effect>, t: Transition, operation: OperationId, effect: EffectId, q: QueuedWrite)
    requires Owns(c, q) && c.journal.overflow.None?
    ensures Owns(Absorb(c, so, t, operation, effect).0, q)
  {
    hide Owns, Reconcile;
    if t.disposition.Applied? { ReconcileOwns(c, t.effects, q); }
    else { SameOwner(c, Absorb(c, so, t, operation, effect).0, q); }
  }

  lemma StartOwns(c: CoreState, epoch: Epoch, operation: OperationId, effect: EffectId, crossed: bool, q: QueuedWrite)
    requires Owns(c, q)
    ensures Owns(AbsorbStart(c, epoch, operation, effect, crossed).0, q)
    ensures AbsorbStart(c, epoch, operation, effect, crossed).0.journal == c.journal
  {
    var after := AbsorbStart(c, epoch, operation, effect, crossed).0;
    assert after.writer == c.writer && after.journal == c.journal;
    hide AbsorbStart, Owns;
    SameOwner(c, after, q);
  }

  lemma CompletionOwns(c: CoreState, so: seq<Effect>, epoch: Epoch, operation: OperationId, effect: EffectId,
      complete: bool, q: QueuedWrite)
    requires Owns(c, q) && c.journal.overflow.None?
    ensures Owns(AbsorbCompletion(c, so, epoch, operation, effect, complete).0, q)
  {
    hide Owns, Absorb, Machine.WriteCompleted;
    if complete {
      var (m, t) := Machine.WriteCompleted(c.machine, epoch, operation, effect);
      SameOwner(c, c.(machine := m), q);
      AbsorbOwns(c.(machine := m), so, t, operation, effect, q);
    }
  }

  lemma FollowOwns(
    c: CoreState, epoch: Epoch, effect: EffectId, operation: OperationId, crossed: bool, complete: bool, q: QueuedWrite)
    requires Owns(c, q) && c.journal.overflow.None? && Follow(c, epoch, effect, operation, crossed, complete).1.Failure?
    ensures Owns(Follow(c, epoch, effect, operation, crossed, complete).0, q)
  {
    hide Owns, AbsorbStart, AbsorbCompletion, Finish;
    StartOwns(c, epoch, operation, effect, crossed, q);
    var (c1, started) := AbsorbStart(c, epoch, operation, effect, crossed);
    if started.Success? {
      CompletionOwns(c1, started.value, epoch, operation, effect, complete, q);
      var (c2, effects) := AbsorbCompletion(c1, started.value, epoch, operation, effect, complete);
      if effects.Success? { FinishOwns(c2, Transition(Applied, None, effects.value), q); }
    }
  }

  /** The frame a report completes is the only one that leaves the queue. */
  lemma AdvanceSplits(writer: WriterState, epoch: Epoch, effect: EffectId, count: nat, q: QueuedWrite)
    requires q in writer.frames
    ensures var (after, r) := Advance(writer, epoch, effect, count);
      || (exists p :: p in after.frames && SameFrame(p, q))
      || (r.Success? && r.value.Complete? && SameFrame(r.value.frame, q))
  {
    var (after, r) := Advance(writer, epoch, effect, count);
    var j :| 0 <= j < |writer.frames| && writer.frames[j] == q;
    if r.Success? && r.value.Complete? {
      if j > 0 {
        assert after.frames[j - 1] == q;
        assert q in after.frames && SameFrame(q, q);
      }
    } else {
      assert |after.frames| == |writer.frames| && SameFrame(after.frames[j], q);
      assert after.frames[j] in after.frames;
    }
  }

  predicate SameFrame(p: QueuedWrite, q: QueuedWrite) {
    p.operation == q.operation && p.effect == q.effect && p.frame == q.frame
  }

  lemma OwnsSame(c: CoreState, p: QueuedWrite, q: QueuedWrite)
    requires Owns(c, p) && SameFrame(p, q)
    ensures Owns(c, q)
  {
    var x :| x in AllDiscarded(c.writer.frames) + HeldWrites(c.journal) && IsFrame(x, p);
    assert IsFrame(x, q);
  }

  lemma JournalOwns(c: CoreState, p: QueuedWrite, q: QueuedWrite)
    requires Owns(c, q) || SameFrame(p, q)
    requires c.journal.overflow.None?
    ensures Owns(JournalCompletion(c, p).0, q)
    ensures JournalCompletion(c, p).1.None? ==> JournalCompletion(c, p).0.journal.overflow.None?
  {
    var after := JournalCompletion(c, p).0;
    RetainHolds(c.journal, AsDiscarded(p));
    assert HeldWrites(after.journal) == HeldWrites(RetainWrite(c.journal, AsDiscarded(p)).0) && after.writer == c.writer;
    hide JournalCompletion, RetainWrite, HeldWrites;
    if SameFrame(p, q) {
      OwnsHeld(after, q, AsDiscarded(p));
    } else {
      var x :| x in AllDiscarded(c.writer.frames) + HeldWrites(c.journal) && IsFrame(x, q);
      assert x in AllDiscarded(after.writer.frames) + HeldWrites(after.journal);
    }
  }

  lemma ReportOwns(c: CoreState, epoch: Epoch, effect: EffectId, count: nat, q: QueuedWrite)
    requires Fresh(c) && q in c.writer.frames
    ensures var (writer, progress) := Advance(c.writer, epoch, effect, count);
      Owns(c.(journal := BeginProgress(c.journal), writer := writer), q)
      || (progress.Success? && progress.value.Complete? && SameFrame(progress.value.frame, q))
  {
    AdvanceSplits(c.writer, epoch, effect, count, q);
    var (writer, progress) := Advance(c.writer, epoch, effect, count);
    var c2 := c.(journal := BeginProgress(c.journal), writer := writer);
    hide Advance, Owns;
    if !(progress.Success? && progress.value.Complete? && SameFrame(progress.value.frame, q)) {
      var p :| p in writer.frames && SameFrame(p, q);
      OwnsQueued(c2, p);
      OwnsSame(c2, p, q);
    }
  }

  lemma FailedReportOwns(c: CoreState, epoch: Epoch, effect: EffectId, count: nat, q: QueuedWrite)
    requires Fresh(c) && q in c.writer.frames && AdvanceWrite(c, epoch, effect, count).1.Failure?
    ensures Owns(AdvanceWrite(c, epoch, effect, count).0, q)
  {
    hide Owns, Advance, Follow, JournalCompletion, Fresh, SameFrame;
    var after := AdvanceWrite(c, epoch, effect, count).0;
    ReportOwns(c, epoch, effect, count, q);
    var (writer, progress) := Advance(c.writer, epoch, effect, count);
    var c2 := c.(journal := BeginProgress(c.journal), writer := writer);
    if Health(c).1.Some? {
      OwnsQueued(after, q);
    } else if progress.Failure? {
      SameOwner(c2, after, q);
    } else if progress.value.Pending? {
      FollowOwns(c2, epoch, effect, progress.value.operation, progress.value.crossed, false, q);
    } else {
      JournalOwns(c2, progress.value.frame, q);
      var (c3, error) := JournalCompletion(c2, progress.value.frame);
      if error.None? { FollowOwns(c3, epoch, effect, progress.value.operation, progress.value.crossed, true, q); }
    }
  }

  // --------------------------------------------------------------- where each frame ends

  lemma {:induction false} PolicyMember(survivors: seq<Survivor>, v: Survivor)
    requires v in survivors && v.FromPolicy?
    ensures v.record in PolicyBag(survivors)
  {
    if survivors[0] != v { PolicyMember(survivors[1..], v); }
  }

  /** Where a frame of a failed owner ends: with its own operation, unmatched, or with a tombstone
      that was still pending. */
  ghost predicate Placed(c: CoreState, q: QueuedWrite) {
    var recovery := Recover(c).1;
    || (exists x :: x in recovery.unmatched && IsFrame(x, q))
    || (exists o :: o in recovery.operations && o.operation == q.operation && o.frame == Some(q.frame))
    || (exists r :: r in c.machine.pending && r.phase.Terminal? && r.id == q.operation && r.effect == q.effect)
  }

  function Starting(c: CoreState): Restoring {
    Restoring(
      AllDiscarded(c.writer.frames) + HeldWrites(c.journal), [], c.machine.ledger,
      c.journal.armed || c.journal.operations != [] || Merge(c.journal.operations, c.machine.pending).diverged)
  }

  lemma RecoveredFrom(c: CoreState)
    ensures var out := RestoreAll(Starting(c), Merge(c.journal.operations, c.machine.pending).survivors);
      Recover(c).1.operations == out.operations && Recover(c).1.unmatched == out.writes
  {
    hide Merge, RestoreAll, AllDiscarded, HeldWrites;
  }

  /** A surviving record was pending. */
  lemma SurvivorPending(c: CoreState, v: Survivor)
    requires v in Merge(c.journal.operations, c.machine.pending).survivors && v.FromPolicy?
    ensures v.record in c.machine.pending
  {
    hide MergeFrom, PolicyBag, Missing, JournalIds;
    var merged := Merge(c.journal.operations, c.machine.pending);
    PolicyMember(merged.survivors, v);
    MergeKeepsPolicy(0, |c.machine.pending| + Missing(c.journal.operations, c.machine.pending),
                     c.journal.operations, c.machine.pending, JournalIds(c.journal.operations));
    assert v.record in multiset(c.machine.pending);
  }

  lemma OwnedPlaced(c: CoreState, q: QueuedWrite)
    requires Owns(c, q)
    ensures Placed(c, q)
  {
    hide Recover, RestoreAll, Merge, AllDiscarded, HeldWrites;
    var x :| x in AllDiscarded(c.writer.frames) + HeldWrites(c.journal) && IsFrame(x, q);
    var survivors := Merge(c.journal.operations, c.machine.pending).survivors;
    var out := RestoreAll(Starting(c), survivors);
    EveryFrameHomed(Starting(c), survivors, x);
    RecoveredFrom(c);
    if x !in out.writes && !(exists o :: o in out.operations && o.operation == x.operation && o.frame == Some(x.frame)) {
      var v :| v in survivors && v.FromPolicy? && v.Finished()
        && v.record.id == x.operation && v.record.effect == x.effect;
      SurvivorPending(c, v);
    }
  }

  /** No failed step loses a frame, in whatever inconsistent owner. */
  lemma FailedStepPlaces(c: CoreState, q: QueuedWrite)
    requires Fresh(c) && q in c.writer.frames
    ensures forall input :: Core.Apply(c, input).1.Failure? ==> Placed(Core.Apply(c, input).0, q)
    ensures forall reply :: Core.ApplyReply(c, reply).1.Failure? ==> Placed(Core.ApplyReply(c, reply).0, q)
    ensures forall epoch, effect, count :: AdvanceWrite(c, epoch, effect, count).1.Failure? ==>
      Placed(AdvanceWrite(c, epoch, effect, count).0, q)
  {
    hide Core.Apply, Core.ApplyReply, AdvanceWrite, Placed, Owns;
    forall input | Core.Apply(c, input).1.Failure? ensures Placed(Core.Apply(c, input).0, q) {
      FailedInputOwns(c, input, q);
      OwnedPlaced(Core.Apply(c, input).0, q);
    }
    forall reply | Core.ApplyReply(c, reply).1.Failure? ensures Placed(Core.ApplyReply(c, reply).0, q) {
      FailedReplyOwns(c, reply, q);
      OwnedPlaced(Core.ApplyReply(c, reply).0, q);
    }
    forall epoch, effect, count | AdvanceWrite(c, epoch, effect,
      count).1.Failure? ensures Placed(AdvanceWrite(c, epoch, effect, count).0, q) {
      FailedReportOwns(c, epoch, effect, count, q);
      OwnedPlaced(AdvanceWrite(c, epoch, effect, count).0, q);
    }
  }
}