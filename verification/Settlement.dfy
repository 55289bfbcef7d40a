/** A written frame leaves the queue and waits for its reply; a cancelled one leaves a tombstone;
    an over-report leaves an owner that can only be recovered. */
module Settlement {
  import opened Primitives
  import opened KeySet
  import opened Ledger
  import opened Operations
  import opened Writer
  import opened Journal
  import opened Recovery
  import opened Core
  import opened World
  import opened Moves
  import opened Progress
  import Machine

  // --------------------------------------------------------------- written out

  function Waiting(r: Record): Record {
    r.(phase := if r.phase.Terminal? then Terminal else AwaitingReply, writeHeld := false)
  }

  function WrittenWorld(w: World): World
    requires 0 < |w.core.writer.frames| <= |w.core.machine.pending|
  {
    var m, frames := w.core.machine, w.core.writer.frames;
    var k := WrittenCount(m.pending, frames);
    w.(core := w.core.(
         machine := m.(ledger := ReleaseWrite(m.ledger, m.pending[k].reservation.writeRetained),
                       pending := m.pending[k := Waiting(m.pending[k])]),
         writer := w.core.writer.(frames := frames[1..], used := RetainedSum(frames[1..]))))
  }

  function WrittenGhosts(w: World, g: Ghosts): Ghosts
    requires 0 < |w.core.writer.frames| <= |w.core.machine.pending| == |g.order|
    requires forall a :: 0 <= a < |g.order| ==> g.order[a] < |w.commits|
  {
    var after := WrittenWorld(w);
    g.(cut := Cut(after.core.machine.pending, after.core.writer.frames, w.commits, g.order))
  }

  lemma WrittenShaped(pending: seq<Record>, frames: seq<QueuedWrite>)
    requires Shaped(pending, frames, Full) && frames != []
    requires pending[WrittenCount(pending, frames)].completion.ReplyExpected?
    ensures var k := WrittenCount(pending, frames); Shaped(pending[k := Waiting(pending[k])], frames[1..], Tight)
  {
    var k := WrittenCount(pending, frames);
    var p, f := pending[k := Waiting(pending[k])], frames[1..];
    assert Holds(pending[k + 0], frames[0], Full);
    forall i | 0 <= i < k + 1 ensures WrittenOut(p[i]) {
      if i < k { assert WrittenOut(pending[i]); }
    }
    forall j | 0 <= j < |f| ensures Holds(p[k + 1 + j], f[j], SlackOf(Tight, j)) {
      assert Holds(pending[k + (j + 1)], frames[j + 1], SlackOf(Full, j + 1));
    }
  }

  lemma WrittenTracked(pending: seq<Record>, frames: seq<QueuedWrite>, commits: seq<Commitment>, order: seq<nat>)
    requires Ordered(pending, commits, order) && Shaped(pending, frames, Full) && frames != []
    requires Tracked(pending, frames, commits, order)
    ensures var k := WrittenCount(pending, frames);
      Ordered(pending[k := Waiting(pending[k])], commits, order)
      && Tracked(pending[k := Waiting(pending[k])], frames[1..], commits, order)
  {
    var k := WrittenCount(pending, frames);
    var p, f := pending[k := Waiting(pending[k])], frames[1..];
    assert Holds(pending[k + 0], frames[0], Full);
    assert commits[order[k + 0]].frame == frames[0].frame;
    forall i | 0 <= i < |order| ensures Same(commits[order[i]], p[i]) {
      assert Same(commits[order[i]], pending[i]);
    }
    forall j | 0 <= j < |f|
      ensures commits[order[k + 1 + j]].frame == f[j].frame && commits[order[k + 1 + j]].sent == f[j].written
              && (commits[order[k + 1 + j]].touched <==> f[j].started)
    {
      assert commits[order[k + (j + 1)]].frame == frames[j + 1].frame;
    }
  }

  lemma WrittenStructure(w: World, g: Ghosts)
    requires Structured(w, g, Full) && w.core.writer.frames != []
    requires w.core.machine.pending[WrittenCount(w.core.machine.pending, w.core.writer.frames)].completion.ReplyExpected?
    ensures Structured(WrittenWorld(w), WrittenGhosts(w, g), Tight)
  {
    var pending, frames := w.core.machine.pending, w.core.writer.frames;
    var k := WrittenCount(pending, frames);
    FrontFacts(w, g, Full);
    WrittenShaped(pending, frames);
    WrittenTracked(pending, frames, w.commits, g.order);
    hide Shaped, Tracked, Holds, ReleaseWrite;
    assert frames[1..] != [] ==> g.order[k] < g.order[k + 1];
  }

  lemma WrittenAccounts(w: World, g: Ghosts)
    requires Structured(w, g, Full) && Accounted(w) && w.core.writer.frames != []
    ensures Accounted(WrittenWorld(w))
  {
    var m, frames := w.core.machine, w.core.writer.frames;
    var k := WrittenCount(m.pending, frames);
    FrontFacts(w, g, Full);
    UpdateClaims(w.permits, m.pending, k, Waiting(m.pending[k]));
    hide Structured, Balanced, RetainedSum, Claims, ReleaseWrite;
    var claims := Claims(w.permits, m.pending);
    ReleaseWriteBalanced(m.ledger, claims, |w.permits| + k);
    WriteLimits(m.ledger, m.pending[k].reservation.writeRetained);
  }

  lemma WriteLimits(l: LedgerState, bytes: nat)
    ensures ReleaseWrite(l, bytes).limits == l.limits
  {
  }

  lemma WrittenConserved(w: World, g: Ghosts)
    requires Structured(w, g, Full) && Conserved(w) && w.core.writer.frames != []
    ensures Conserved(WrittenWorld(w))
  {
    var pending, frames := w.core.machine.pending, w.core.writer.frames;
    var k := WrittenCount(pending, frames);
    FrontFacts(w, g, Full);
    hide ActiveBag, OutcomeIds, RecoveredBag, CommitIds, Structured, ReleaseWrite, RetainedSum;
    ActiveAt(pending, k, pending[k]);
    ActiveAt(pending, k, Waiting(pending[k]));
  }

  /** The whole front frame was reported: its record waits for a reply, or stays a tombstone. */
  lemma WrittenKeeps(w: World, g: Ghosts)
    requires Sound(w, g, Full) && w.core.writer.frames != []
    requires w.core.machine.pending[WrittenCount(w.core.machine.pending, w.core.writer.frames)].completion.ReplyExpected?
    ensures Sound(WrittenWorld(w), WrittenGhosts(w, g), Tight)
  {
    hide Identified, Structured, Accounted, Conserved, Certain, Answered, Flatten, Closures, Cut, ReleaseWrite,
      RetainedSum, Holds;
    FrontFacts(w, g, Full);
    WrittenStructure(w, g);
    WrittenAccounts(w, g);
    WrittenConserved(w, g);
    WrittenIdentities(w, g);
  }

  lemma WrittenIdentities(w: World, g: Ghosts)
    requires Identified(w, g.delta) && 0 < |w.core.writer.frames| <= |w.core.machine.pending|
    ensures Identified(WrittenWorld(w), g.delta)
  {
  }

  // --------------------------------------------------------------- tombstones

  function Tombstoned(w: World, i: nat): World
    requires i < |w.core.machine.pending|
  {
    var m := w.core.machine;
    var r := m.pending[i];
    w.(core := w.core.(machine := m.(pending := m.pending[i := r.(phase := Terminal)])),
       trace := w.trace + [PublishOutcome(m.epoch, r.id, Cancelled(PossiblySent))])
  }

  lemma TombShaped(pending: seq<Record>, frames: seq<QueuedWrite>, i: nat)
    requires Shaped(pending, frames, Tight) && i < |pending| && pending[i].delivery.PossiblySent?
    ensures Shaped(pending[i := pending[i].(phase := Terminal)], frames, Tight)
  {
    var k := WrittenCount(pending, frames);
    var p := pending[i := pending[i].(phase := Terminal)];
    forall x | 0 <= x < k ensures WrittenOut(p[x]) {
      assert WrittenOut(pending[x]);
    }
    forall j | 0 <= j < |frames| ensures Holds(p[k + j], frames[j], SlackOf(Tight, j)) {
      assert Holds(pending[k + j], frames[j], SlackOf(Tight, j));
    }
  }

  lemma TombTracked(pending: seq<Record>, frames: seq<QueuedWrite>, commits: seq<Commitment>, order: seq<nat>, i: nat)
    requires Ordered(pending, commits, order) && |frames| <= |pending| && i < |pending|
    requires Tracked(pending, frames, commits, order)
    ensures Ordered(pending[i := pending[i].(phase := Terminal)], commits, order)
    ensures Tracked(pending[i := pending[i].(phase := Terminal)], frames, commits, order)
  {
    var p := pending[i := pending[i].(phase := Terminal)];
    forall x | 0 <= x < |order| ensures order[x] < |commits| && Same(commits[order[x]], p[x]) {
      assert Same(commits[order[x]], pending[x]);
    }
  }

  lemma CancelledTruthful(w: World, delta: int, c: nat, e: Effect)
    requires Identified(w, delta) && c < |w.commits| && w.commits[c].touched
    requires e.PublishOutcome? && e.operation == w.commits[c].id && e.outcome == Cancelled(PossiblySent)
    ensures Truthful(e, w.commits)
  {
  }

  lemma TombRecords(w: World, g: Ghosts, i: nat)
    requires Structured(w, g, Tight) && Identified(w, g.delta) && Recorded(w, g) && i < |w.core.machine.pending|
    requires w.core.machine.pending[i].delivery.PossiblySent? && !w.core.machine.pending[i].phase.Terminal?
    ensures Recorded(Tombstoned(w, i), g)
  {
    var m := w.core.machine;
    var r := m.pending[i];
    var e := PublishOutcome(m.epoch, r.id, Cancelled(PossiblySent));
    hide Certain, Answered, Conserved, Flatten, Truthful, Identified, Shaped, Tracked, CutAt, Cut;
    TombTruthful(w, g, i);
    TombConserved(w, i);
    CertainExtends(w.trace, [e], w.recovered, w.commits);
    AnsweredExtends(w.trace, [e], w.commits, g.order, g.order);
  }

  lemma TombTruthful(w: World, g: Ghosts, i: nat)
    requires Structured(w, g, Tight) && Identified(w, g.delta) && Recorded(w, g) && i < |w.core.machine.pending|
    requires w.core.machine.pending[i].delivery.PossiblySent? && !w.core.machine.pending[i].phase.Terminal?
    ensures Truthful(
      PublishOutcome(w.core.machine.epoch, w.core.machine.pending[i].id, Cancelled(PossiblySent)), w.commits)
  {
    hide Certain, Answered, Conserved, Flatten, Truthful, Shaped, Tracked, CutAt, Cut;
    var e := PublishOutcome(w.core.machine.epoch, w.core.machine.pending[i].id, Cancelled(PossiblySent));
    TouchedExactly(w, g, Tight, i);
    CancelledTruthful(w, g.delta, g.order[i], e);
  }

  lemma TombConserved(w: World, i: nat)
    requires Conserved(w) && i < |w.core.machine.pending| && !w.core.machine.pending[i].phase.Terminal?
    ensures Conserved(Tombstoned(w, i))
  {
    hide OutcomeIds, ActiveBag, RecoveredBag, CommitIds;
    var m := w.core.machine;
    var e := PublishOutcome(m.epoch, m.pending[i].id, Cancelled(PossiblySent));
    ActiveAt(m.pending, i, m.pending[i].(phase := Terminal));
    OutcomeConcat(w.trace, [e]);
    OutcomeSingle(e);
  }

  lemma TombAccounts(w: World, i: nat)
    requires Accounted(w) && i < |w.core.machine.pending|
    ensures Accounted(Tombstoned(w, i))
  {
    hide Balanced, RetainedSum, Claims;
    SameClaims(w.permits, w.core.machine.pending, i, w.core.machine.pending[i].(phase := Terminal));
  }

  lemma TombPhased(w: World, i: nat)
    requires Phased(w) && i < |w.core.machine.pending|
    ensures Phased(Tombstoned(w, i))
  {
    hide Closures;
    var m := w.core.machine;
    var e := PublishOutcome(m.epoch, m.pending[i].id, Cancelled(PossiblySent));
    ClosuresConcat(w.trace, [e]);
    NoClosures([e]);
  }

  lemma TombIdentities(w: World, delta: int, i: nat)
    requires Identified(w, delta) && i < |w.core.machine.pending|
    ensures Identified(Tombstoned(w, i), delta)
  {
  }

  lemma TombStructure(w: World, g: Ghosts, i: nat)
    requires Structured(w, g, Tight) && i < |w.core.machine.pending| && w.core.machine.pending[i].delivery.PossiblySent?
    ensures Structured(Tombstoned(w, i), g, Tight)
  {
    hide Shaped, Tracked, Ordered, CutAt;
    StructureBounds(w, g, Tight);
    TombShaped(w.core.machine.pending, w.core.writer.frames, i);
    TombTracked(w.core.machine.pending, w.core.writer.frames, w.commits, g.order, i);
  }

  lemma StructureBounds(w: World, g: Ghosts, slack: Slack)
    requires Structured(w, g, slack)
    ensures |w.core.writer.frames| <= |w.core.machine.pending| == |g.order|
    ensures forall a :: 0 <= a < |g.order| ==> g.order[a] < |w.commits|
  {
  }

  /** Cancelling a possibly sent operation publishes its outcome but keeps its place in line. */
  lemma TombKeeps(w: World, g: Ghosts, i: nat)
    requires Sound(w, g, Tight) && i < |w.core.machine.pending|
    requires w.core.machine.pending[i].delivery.PossiblySent? && !w.core.machine.pending[i].phase.Terminal?
    ensures Sound(Tombstoned(w, i), g, Tight)
    ensures Busy(w) ==> Busy(Tombstoned(w, i))
  {
    hide Identified, Structured, Accounted, Recorded, Phased;
    TombIdentities(w, g.delta, i);
    TombStructure(w, g, i);
    TombAccounts(w, i);
    TombRecords(w, g, i);
    TombPhased(w, i);
  }

  // --------------------------------------------------------------- over-report

  function OverReported(w: World, source: CoreInvariant): World
    requires w.core.writer.frames != []
  {
    var q := w.core.writer.frames[0];
    w.(core := w.core.(writer := w.core.writer.(frames := w.core.writer.frames[0 := q.(started := true)]),
                       journal := BeginProgress(w.core.journal),
                       poisoned := Some(source)),
       commits := Credit(w.commits, q.operation, 0, true))
  }

  lemma OverShaped(pending: seq<Record>, frames: seq<QueuedWrite>)
    requires Shaped(pending, frames, Tight) && frames != []
    ensures Shaped(pending, frames[0 := frames[0].(started := true)], Loose)
  {
    var k := WrittenCount(pending, frames);
    var f := frames[0 := frames[0].(started := true)];
    forall j | 0 <= j < |f| ensures Holds(pending[k + j], f[j], SlackOf(Loose, j)) {
      assert Holds(pending[k + j], frames[j], SlackOf(Tight, j));
    }
  }

  lemma OverTracked(pending: seq<Record>, frames: seq<QueuedWrite>,
                    commits: seq<Commitment>, after: seq<Commitment>, order: seq<nat>)
    requires Ordered(pending, commits, order) && 0 < |frames| <= |pending| && Tracked(pending, frames, commits, order)
    requires OnlyAt(commits, after, order[WrittenCount(pending, frames)])
    requires var c := order[WrittenCount(pending, frames)]; after[c] == commits[c].(touched := true)
    ensures Ordered(pending, after, order)
    ensures Tracked(pending, frames[0 := frames[0].(started := true)], after, order)
  {
    var k := WrittenCount(pending, frames);
    var f := frames[0 := frames[0].(started := true)];
    forall i | 0 <= i < |order| ensures order[i] < |after| && Same(after[order[i]], pending[i]) {
      assert Same(commits[order[i]], pending[i]);
    }
    forall j | 0 <= j < |f|
      ensures after[order[k + j]].frame == f[j].frame && after[order[k + j]].sent == f[j].written
              && (after[order[k + j]].touched <==> f[j].started)
    {
      assert commits[order[k + j]].frame == frames[j].frame;
    }
  }

  lemma OverStructure(w: World, g: Ghosts, source: CoreInvariant)
    requires Structured(w, g, Tight) && Identified(w, g.delta) && w.core.writer.frames != []
    ensures Structured(OverReported(w, source), g, Loose)
  {
    var pending, frames := w.core.machine.pending, w.core.writer.frames;
    var c := g.order[WrittenCount(pending, frames)];
    FrontFacts(w, g, Tight);
    CreditOnlyAt(w.commits, c, 0, true);
    OverShaped(pending, frames);
    hide Shaped, Holds, Same;
    var after := Credit(w.commits, frames[0].operation, 0, true);
    OverTracked(pending, frames, w.commits, after, g.order);
  }

  lemma OverRecords(w: World, g: Ghosts, source: CoreInvariant)
    requires Structured(w, g, Tight) && Identified(w, g.delta) && Recorded(w, g) && w.core.writer.frames != []
    ensures Recorded(OverReported(w, source), g)
  {
    hide Certain, Answered, CommitIds, OutcomeIds, ActiveBag, RecoveredBag, Flatten, Shaped, Tracked, CutAt, Cut;
    var pending, frames := w.core.machine.pending, w.core.writer.frames;
    var k := WrittenCount(pending, frames);
    FrontFacts(w, g, Tight);
    var c := g.order[k];
    var after := Credit(w.commits, frames[0].operation, 0, true);
    CreditOnlyAt(w.commits, c, 0, true);
    if !frames[0].started { FrontUnspoken(w, k, c); }
    CertainCredit(w.trace, w.recovered, w.commits, after, c);
    AnsweredCredit(w.trace, w.commits, after, g.order, c);
    CreditIds(w.commits, frames[0].operation, 0, true);
    FlattenSame(w.commits, after);
  }

  lemma OverIdentities(w: World, g: Ghosts, source: CoreInvariant)
    requires Structured(w, g, Tight) && Identified(w, g.delta) && w.core.writer.frames != []
    ensures Identified(OverReported(w, source), g.delta)
  {
    var pending, frames := w.core.machine.pending, w.core.writer.frames;
    var c := g.order[WrittenCount(pending, frames)];
    FrontFacts(w, g, Tight);
    CreditOnlyAt(w.commits, c, 0, true);
    hide Identified, Structured, OnlyAt, Credit;
    IdentifiedCredit(w, g.delta, OverReported(w, source), c);
  }

  lemma OverAccounts(w: World, source: CoreInvariant)
    requires Accounted(w) && w.core.writer.frames != []
    ensures Accounted(OverReported(w, source))
  {
    hide Balanced, RetainedSum, Claims;
    RetainedReplace(w.core.writer.frames, 0, w.core.writer.frames[0].(started := true));
  }

  /** A refused report moves no counted byte, but the owner never again calls that frame unsent. */
  lemma OverKeeps(w: World, g: Ghosts, source: CoreInvariant)
    requires Sound(w, g, Tight) && w.core.writer.frames != []
    ensures Sound(OverReported(w, source), g, Loose)
    ensures Busy(OverReported(w, source))
  {
    hide Identified, Structured, Accounted, Recorded, Closures, Credit;
    OverStructure(w, g, source);
    OverRecords(w, g, source);
    OverIdentities(w, g, source);
    OverAccounts(w, source);
  }
}
