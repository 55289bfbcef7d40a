/** Reconciliation on a healthy owner: every frame removal the policy asks for finds its frame, and
    the caller sees every other effect unchanged. */
module Reconciling {
  import opened Primitives
  import opened KeySet
  import opened Ledger
  import opened Operations
  import opened Writer
  import opened Journal
  import opened Recovery
  import opened Core
  import opened World
  import opened Moves
  import opened Rescue
  import opened Agreement
  import Machine

  ghost predicate NoDiscards(effects: seq<Effect>) {
    forall j :: 0 <= j < |effects| ==> !effects[j].DiscardWrite?
  }

  lemma {:induction false} ReconcileQuiet(c: CoreState, effects: seq<Effect>)
    requires NoDiscards(effects)
    ensures Reconcile(c, effects) == (c, Success(effects))
    ensures Visible(effects) == effects
    decreases |effects|
  {
    if effects != [] {
      ReconcileQuiet(c, effects[1..]);
      assert [effects[0]] + effects[1..] == effects;
      VisibleOne(effects[0]);
      VisibleConcat([effects[0]], effects[1..]);
    }
  }

  lemma {:induction false} ReconcileConcat(c: CoreState, a: seq<Effect>, b: seq<Effect>)
    requires Reconcile(c, a).1.Success?
    ensures var (c1, first) := Reconcile(c, a);
      var (c2, second) := Reconcile(c1, b);
      Reconcile(c, a + b) == (c2, if second.Success? then Success(first.value + second.value) else second)
    decreases |a|
  {
    if a == [] {
      assert a + b == b;
      var r := Reconcile(c, b).1;
      assert r.Success? ==> [] + r.value == r.value;
    } else {
      assert (a + b)[0] == a[0] && (a + b)[1..] == a[1..] + b;
      if a[0].DiscardWrite? {
        ReconcileConcat(ReconcileDiscard(c, a[0].epoch, a[0].effect, a[0].operation).0, a[1..], b);
      } else {
        ReconcileConcat(c, a[1..], b);
        var (c1, first) := Reconcile(c, a[1..]);
        var second := Reconcile(c1, b).1;
        if second.Success? {
          assert [a[0]] + (first.value + second.value) == [a[0]] + first.value + second.value;
        }
      }
    }
  }

  /** The owner after the frame at `j` was moved to the journal. */
  function Discarding(c: CoreState, j: nat): CoreState
    requires j < |c.writer.frames|
  {
    var frames := RemoveAt(c.writer.frames, j);
    c.(writer := c.writer.(frames := frames, used := RetainedSum(frames)),
       journal := c.journal.(writes := c.journal.writes + [AsDiscarded(c.writer.frames[j])]))
  }

  lemma DiscardFinds(c: CoreState, j: nat)
    requires j < |c.writer.frames| && c.writer.used == RetainedSum(c.writer.frames)
    requires forall i :: 0 <= i < j ==> c.writer.frames[i].effect != c.writer.frames[j].effect
    requires |c.journal.writes| < c.journal.maxWrites
    ensures ReconcileDiscard(c, c.writer.epoch, c.writer.frames[j].effect, c.writer.frames[j].operation)
         == (Discarding(c, j), None)
  {
    var q := c.writer.frames[j];
    var index := IndexOfEffect(c.writer.frames, q.effect);
    assert index == Some(j);
    RetainedRemove(c.writer.frames, j);
    hide RetainedSum, IndexOfEffect;
  }

  lemma ReconcileFirst(c: CoreState, e: Effect, rest: seq<Effect>, c1: CoreState)
    requires e.DiscardWrite? && ReconcileDiscard(c, e.epoch, e.effect, e.operation) == (c1, None)
    ensures Reconcile(c, [e] + rest) == Reconcile(c1, rest)
  {
    assert ([e] + rest)[1..] == rest;
  }

  // --------------------------------------------------------------- one removed record

  /** Effects of a removing step: the frame first, if any, then what the caller sees. */
  function Removing(epoch: Epoch, r: Record, rest: seq<Effect>): seq<Effect> {
    (if r.writeHeld then [DiscardWrite(epoch, r.effect, r.id)] else []) + rest
  }

  /** An owner in the middle of a step: its writer untouched, its journal begun. */
  ghost predicate Midway(c: CoreState, w: World) {
    && c.writer == w.core.writer && c.poisoned.None? && c.audited == w.core.audited
    && c.journal.writes == [] && c.journal.overflow.None?
    && c.journal.maxOperations == w.core.journal.maxOperations && c.journal.maxWrites == w.core.journal.maxWrites
    && !c.machine.ledger.poisoned
  }

  lemma SuffixEffects(pending: seq<Record>, frames: seq<QueuedWrite>, slack: Slack, delta: int, i: nat)
    requires Shaped(pending, frames, slack) && DistinctIds(pending) && WrittenCount(pending, frames) <= i < |pending|
    requires forall x :: 0 <= x < |pending| ==> pending[x].effect - pending[x].id == delta
    ensures var k := WrittenCount(pending, frames);
      frames[i - k].effect == pending[i].effect && frames[i - k].operation == pending[i].id
      && forall j :: 0 <= j < |frames| && j != i - k ==> frames[j].effect != frames[i - k].effect
  {
    var k := WrittenCount(pending, frames);
    assert Holds(pending[k + (i - k)], frames[i - k], SlackOf(slack, i - k));
    forall j | 0 <= j < |frames| && j != i - k ensures frames[j].effect != frames[i - k].effect {
      assert Holds(pending[k + j], frames[j], SlackOf(slack, j));
      assert pending[k + j].id != pending[i].id;
    }
  }

  /** What a step needs to know to take out the `i`-th record's frame. */
  ghost predicate Locatable(c: CoreState, pending: seq<Record>, i: nat)
    requires i < |pending|
  {
    var k := WrittenCount(pending, c.writer.frames);
    && 0 <= k && (pending[i].writeHeld <==> k <= i)
    && (k <= i ==>
          && c.writer.frames[i - k].effect == pending[i].effect && c.writer.frames[i - k].operation == pending[i].id
          && (forall j :: 0 <= j < i - k ==> c.writer.frames[j].effect != pending[i].effect))
    && c.writer.used == RetainedSum(c.writer.frames)
    && c.journal.writes == [] && 0 < c.journal.maxWrites
  }

  lemma RemovalLocatable(w: World, g: Ghosts, slack: Slack, i: nat, c: CoreState)
    requires Structured(w, g, slack) && Identified(w, g.delta) && Accounted(w)
    requires i < |w.core.machine.pending| && Midway(c, w)
    ensures Locatable(c, w.core.machine.pending, i) && c.writer.epoch == w.core.machine.epoch
  {
    var m, frames := w.core.machine, w.core.writer.frames;
    PendingDistinct(w, g);
    HeldFrom(m.pending, frames, slack, i);
    NotPoisoned(w);
    if WrittenCount(m.pending, frames) <= i {
      SuffixEffects(m.pending, frames, slack, g.delta, i);
    }
    hide Shaped, Ordered, Tracked, CutAt, Balanced, RetainedSum, DistinctIds;
  }

  /** The writer without the `i`-th record's frame, if it held one. */
  function WriterWithout(writer: WriterState, pending: seq<Record>, i: nat): WriterState
    requires i < |pending| && |writer.frames| <= |pending|
  {
    var frames := FramesWithout(pending, writer.frames, i);
    writer.(frames := frames, used := RetainedSum(frames))
  }

  lemma RemovalReconciles(c: CoreState, pending: seq<Record>, i: nat, rest: seq<Effect>)
    requires i < |pending| && Locatable(c, pending, i) && NoDiscards(rest)
    ensures var r := Reconcile(c, Removing(c.writer.epoch, pending[i], rest));
      r.1 == Success(rest) && Cleared(r.0.journal) == Cleared(c.journal)
      && r.0 == c.(writer := WriterWithout(c.writer, pending, i), journal := r.0.journal)
  {
    var k := WrittenCount(pending, c.writer.frames);
    hide RetainedSum, NoDiscards, Reconcile, ReconcileDiscard, RemoveAt;
    if k <= i {
      DiscardFinds(c, i - k);
      ReconcileFirst(c, DiscardWrite(c.writer.epoch, pending[i].effect, pending[i].id), rest, Discarding(c, i - k));
      ReconcileQuiet(Discarding(c, i - k), rest);
    } else {
      assert Removing(c.writer.epoch, pending[i], rest) == rest;
      ReconcileQuiet(c, rest);
    }
  }

  // --------------------------------------------------------------- closing

  function Shed(pending: seq<Record>, frames: seq<QueuedWrite>, n: nat): nat
    requires n <= |pending| && |frames| <= |pending|
  {
    if n < WrittenCount(pending, frames) then 0 else n - WrittenCount(pending, frames)
  }

  /** The owner after the removals of the first `n` records were reconciled. */
  function After(c: CoreState, pending: seq<Record>, n: nat): CoreState
    requires n <= |pending| && |c.writer.frames| <= |pending|
  {
    var frames, j := c.writer.frames, Shed(pending, c.writer.frames, n);
    c.(writer := c.writer.(frames := frames[j..], used := RetainedSum(frames[j..])),
       journal := c.journal.(writes := AllDiscarded(frames[..j])))
  }

  /** The frames are those of the held suffix, in order. */
  ghost predicate Matched(pending: seq<Record>, frames: seq<QueuedWrite>) {
    var k := WrittenCount(pending, frames);
    && 0 <= k
    && (forall i :: 0 <= i < |pending| ==> (pending[i].writeHeld <==> k <= i))
    && (forall i :: k <= i < |pending| ==>
          frames[i - k].effect == pending[i].effect && frames[i - k].operation == pending[i].id)
  }

  /** Frames and records in step, with room in the journal for every frame. */
  ghost predicate Closable(c: CoreState, pending: seq<Record>) {
    && |c.writer.frames| <= |pending| && Matched(pending, c.writer.frames)
    && |c.writer.frames| <= c.journal.maxWrites && c.journal.writes == []
    && c.writer.used == RetainedSum(c.writer.frames)
  }

  function LastEffects(
    epoch: Epoch, reason: CloseReason, blame: Option<Machine.Blame>, r: Record): (effects: seq<Effect>)
    ensures NoDiscards(effects)
  {
    if r.phase.Terminal? then []
    else [PublishOutcome(epoch, r.id, Failed(Machine.ClosedFailure(reason, blame, r), r.delivery))]
  }

  lemma RecordReconciles(c: CoreState, pending: seq<Record>, i: nat, reason: CloseReason, blame: Option<Machine.Blame>)
    requires Closable(c, pending) && i < |pending|
    ensures var effects := Machine.RecordCloseEffects(c.writer.epoch, reason, blame, pending[i]);
      Reconcile(After(c, pending, i), effects) == (After(c, pending, i + 1), Success(Visible(effects)))
  {
    var r := pending[i];
    var epoch := c.writer.epoch;
    var cancel, discard := CancelDeadline(epoch, r.id), DiscardWrite(epoch, r.effect, r.id);
    var last := LastEffects(epoch, reason, blame, r);
    var here, next := After(c, pending, i), After(c, pending, i + 1);
    if WrittenCount(pending, c.writer.frames) <= i {
      DiscardsNext(c, pending, i);
      assert Machine.RecordCloseEffects(epoch, reason, blame, r) == [cancel] + ([discard] + last);
    } else {
      assert here == next;
      assert Machine.RecordCloseEffects(epoch, reason, blame, r) == [cancel] + last;
    }
    hide After, Closable, Machine.RecordCloseEffects, Reconcile, ReconcileDiscard, LastEffects, Visible;
    ReconcileQuiet(here, [cancel]);
    ReconcileQuiet(next, last);
    VisibleConcat([cancel], last);
    if WrittenCount(pending, c.writer.frames) <= i {
      ReconcileFirst(here, discard, last, next);
      ReconcileConcat(here, [cancel], [discard] + last);
      VisibleConcat([cancel], [discard] + last);
      VisibleConcat([discard], last);
      VisibleOne(discard);
      assert [] + last == last;
    } else {
      ReconcileConcat(here, [cancel], last);
    }
  }

  lemma DiscardsNext(c: CoreState, pending: seq<Record>, i: nat)
    requires Closable(c, pending) && WrittenCount(pending, c.writer.frames) <= i < |pending|
    ensures ReconcileDiscard(After(c, pending, i), c.writer.epoch, pending[i].effect, pending[i].id)
         == (After(c, pending, i + 1), None)
  {
    var frames, j := c.writer.frames, i - WrittenCount(pending, c.writer.frames);
    var here := After(c, pending, i);
    hide ReconcileDiscard, RetainedSum, AllDiscarded, AsDiscarded, RemoveAt;
    FrontOf(frames, j);
    assert |here.journal.writes| < here.journal.maxWrites;
    hide Closable;
    DiscardFinds(here, 0);
  }

  lemma FrontOf(frames: seq<QueuedWrite>, j: nat)
    requires j < |frames|
    ensures frames[j..] != [] && frames[j..][0] == frames[j] && RemoveAt(frames[j..], 0) == frames[j + 1..]
    ensures AllDiscarded(frames[..j]) + [AsDiscarded(frames[j])] == AllDiscarded(frames[..j + 1])
  {
  }

  lemma {:induction false} PrefixReconciles(
    c: CoreState, pending: seq<Record>, n: nat, reason: CloseReason, blame: Option<Machine.Blame>)
    requires Closable(c, pending) && n <= |pending|
    ensures var effects := Machine.CloseEffects(c.writer.epoch, reason, blame, pending[..n]);
      Reconcile(c, effects) == (After(c, pending, n), Success(Visible(effects)))
  {
    hide Reconcile, After, Closable, Visible, Machine.CloseEffects, Machine.RecordCloseEffects;
    if n == 0 {
      NothingReconciles(c, pending, reason, blame);
    } else {
      var front := Machine.CloseEffects(c.writer.epoch, reason, blame, pending[..n - 1]);
      var last := Machine.RecordCloseEffects(c.writer.epoch, reason, blame, pending[n - 1]);
      PrefixReconciles(c, pending, n - 1, reason, blame);
      RecordReconciles(c, pending, n - 1, reason, blame);
      ReconcileConcat(c, front, last);
      VisibleConcat(front, last);
      CloseEffectsNext(c.writer.epoch, reason, blame, pending, n - 1);
    }
  }

  lemma NothingReconciles(c: CoreState, pending: seq<Record>, reason: CloseReason, blame: Option<Machine.Blame>)
    requires Closable(c, pending)
    ensures Machine.CloseEffects(c.writer.epoch, reason, blame, pending[..0]) == []
    ensures Reconcile(c, []) == (After(c, pending, 0), Success(Visible([])))
  {
    hide Matched, RetainedSum;
    assert c.writer.frames[0..] == c.writer.frames && AllDiscarded(c.writer.frames[..0]) == [];
    assert After(c, pending, 0) == c;
  }

  lemma CloseEffectsNext(epoch: Epoch, reason: CloseReason, blame: Option<Machine.Blame>, pending: seq<Record>, i: nat)
    requires i < |pending|
    ensures Machine.CloseEffects(epoch, reason, blame, pending[..i + 1])
      == Machine.CloseEffects(epoch, reason, blame, pending[..i])
         + Machine.RecordCloseEffects(epoch, reason, blame, pending[i])
  {
    hide Machine.RecordCloseEffects;
    assert pending[..i + 1][..i] == pending[..i];
  }

  /** Closing takes every frame back, whatever the mix of written, started and queued records. */
  lemma ClosureReconciles(c: CoreState, pending: seq<Record>, reason: CloseReason, blame: Option<Machine.Blame>)
    requires Closable(c, pending)
    ensures var effects :=
        [CloseEpoch(c.writer.epoch, reason)] + Machine.CloseEffects(c.writer.epoch, reason, blame, pending);
      var r := Reconcile(c, effects);
      r.1 == Success(Visible(effects)) && Cleared(r.0.journal) == Cleared(c.journal)
      && r.0 == c.(writer := c.writer.(frames := [], used := 0), journal := r.0.journal)
  {
    var close := CloseEpoch(c.writer.epoch, reason);
    var effects := Machine.CloseEffects(c.writer.epoch, reason, blame, pending);
    PrefixReconciles(c, pending, |pending|, reason, blame);
    assert pending[..|pending|] == pending;
    ReconcileQuiet(c, [close]);
    ReconcileConcat(c, [close], effects);
    VisibleConcat([close], effects);
    assert c.writer.frames[|c.writer.frames|..] == [];
  }

  lemma InStep(pending: seq<Record>, frames: seq<QueuedWrite>, slack: Slack)
    requires Shaped(pending, frames, slack)
    ensures Matched(pending, frames)
  {
    var k := WrittenCount(pending, frames);
    forall i | 0 <= i < |pending| ensures pending[i].writeHeld <==> k <= i {
      HeldFrom(pending, frames, slack, i);
    }
    forall i | k <= i < |pending|
      ensures frames[i - k].effect == pending[i].effect && frames[i - k].operation == pending[i].id
    {
      assert Holds(pending[k + (i - k)], frames[i - k], SlackOf(slack, i - k));
    }
  }

  /** The journal has a slot for every frame and every record a reachable owner can hold. */
  lemma JournalRoom(w: World, g: Ghosts, slack: Slack)
    requires Structured(w, g, slack) && Accounted(w)
    ensures |w.core.writer.frames| <= w.core.journal.maxWrites && 0 < w.core.journal.maxWrites
    ensures |w.core.machine.pending| <= w.core.journal.maxOperations && 0 < w.core.journal.maxOperations
  {
    Holdings(w, slack);
    NotPoisoned(w);
    hide Shaped, Ordered, Tracked, CutAt, Balanced, RetainedSum, TotalsOf;
  }

  lemma ClosableOwner(w: World, g: Ghosts, slack: Slack, c: CoreState)
    requires Structured(w, g, slack) && Accounted(w) && Midway(c, w)
    ensures Closable(c, w.core.machine.pending) && c.writer.epoch == w.core.machine.epoch
  {
    JournalRoom(w, g, slack);
    InStep(w.core.machine.pending, w.core.writer.frames, slack);
    assert |w.core.writer.frames| <= |w.core.machine.pending|;
    hide Structured, Balanced, RetainedSum, Matched;
  }
}
