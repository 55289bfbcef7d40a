/** The front frame moves: bytes acknowledged, a frame written out, a tombstone left behind, and
    the one report that breaks the owner. */
module Progress {
  import opened Primitives
  import opened KeySet
  import opened Ledger
  import opened Operations
  import opened Writer
  import opened Journal
  import opened Recovery
  import opened Core
  import opened World
  import opened Moves
  import Machine

  // --------------------------------------------------------------- changing one commitment

  /** Commitments agree everywhere but at `c`. */
  ghost predicate OnlyAt(commits: seq<Commitment>, after: seq<Commitment>, c: nat) {
    && |after| == |commits| && c < |commits|
    && after[c].id == commits[c].id && after[c].frame == commits[c].frame && after[c].mode == commits[c].mode
    && (forall i :: 0 <= i < |commits| && i != c ==> after[i] == commits[i])
  }

  lemma CreditOnlyAt(commits: seq<Commitment>, c: nat, count: nat, touched: bool)
    requires c < |commits|
    requires forall a, b :: 0 <= a < b < |commits| ==> commits[a].id != commits[b].id
    ensures OnlyAt(commits, Credit(commits, commits[c].id, count, touched), c)
    ensures Credit(commits, commits[c].id, count, touched)[c]
         == commits[c].(sent := commits[c].sent + count, touched := commits[c].touched || touched)
  {
  }

  /** Nothing in the history has spoken about a commitment whose certainty is still open. */
  lemma CertainCredit(trace: seq<Effect>, recovered: seq<RecoveredOperation>, commits: seq<Commitment>,
                      after: seq<Commitment>, c: nat)
    requires Certain(trace, recovered, commits) && OnlyAt(commits, after, c)
    requires after[c].touched == commits[c].touched
      || ((forall j :: 0 <= j < |trace| ==> !Decides(trace[j], commits[c].id))
          && (forall j :: 0 <= j < |recovered| ==> recovered[j].operation != commits[c].id))
    ensures Certain(trace, recovered, after)
  {
    forall j, d | 0 <= j < |trace| && 0 <= d < |after| && Decides(trace[j], after[d].id)
      ensures OutcomeDelivery(trace[j].outcome).value.PossiblySent? <==> after[d].touched
    {
      assert Decides(trace[j], commits[d].id);
    }
    forall j, d | 0 <= j < |recovered| && 0 <= d < |after| && recovered[j].operation == after[d].id
      ensures recovered[j].delivery.PossiblySent? <==> after[d].touched
    {
      assert recovered[j].operation == commits[d].id;
    }
  }

  /** Replies went to older frames, so the one still pending may change. */
  lemma AnsweredCredit(trace: seq<Effect>, commits: seq<Commitment>, after: seq<Commitment>, order: seq<nat>, c: nat)
    requires Answered(trace, commits, order) && OnlyAt(commits, after, c) && c in order
    ensures Answered(trace, after, order)
  {
    forall j, d | 0 <= j < |trace| && 0 <= d < |after| && Answers(trace[j], after[d].id)
      ensures Whole(after[d]) && after[d].mode.ReplyExpected? && (forall i :: 0 <= i < |order| ==> d < order[i])
    {
      assert Answers(trace[j], commits[d].id);
    }
    forall j, k, d, e | 0 <= j < k < |trace| && 0 <= d < |after| && 0 <= e < |after|
      ensures !(e <= d && Answers(trace[j], after[d].id) && Answers(trace[k], after[e].id))
    {
      assert after[d].id == commits[d].id && after[e].id == commits[e].id;
    }
  }

  lemma IdentifiedCredit(w: World, delta: int, after: World, c: nat)
    requires Identified(w, delta) && OnlyAt(w.commits, after.commits, c) && after.permits == w.permits
    requires SameIds(w.core.machine.pending, after.core.machine.pending)
    requires after.core.machine.epoch == w.core.machine.epoch
    requires after.core.machine.nextOperation == w.core.machine.nextOperation
    requires after.core.machine.nextEffect == w.core.machine.nextEffect
    ensures Identified(after, delta)
  {
    assert forall i :: 0 <= i < |w.commits| ==> after.commits[i].id == w.commits[i].id;
  }

  ghost predicate SameIds(a: seq<Record>, b: seq<Record>) {
    |a| == |b| && forall i :: 0 <= i < |a| ==> b[i].id == a[i].id && b[i].effect == a[i].effect
  }

  // --------------------------------------------------------------- bytes move

  function Moved(q: QueuedWrite, count: nat): QueuedWrite {
    q.(written := q.written + count, started := q.started || count > 0)
  }

  function Begun(r: Record): Record {
    r.(delivery := PossiblySent, phase := Writing)
  }

  /** The pending records after the front frame crossed its first byte. */
  function Crossed(pending: seq<Record>, frames: seq<QueuedWrite>, count: nat): seq<Record>
    requires 0 < |frames| <= |pending|
  {
    var k := WrittenCount(pending, frames);
    if count > 0 && !frames[0].started then pending[k := Begun(pending[k])] else pending
  }

  function Progressed(w: World, count: nat): World
    requires 0 < |w.core.writer.frames| <= |w.core.machine.pending|
  {
    var frames := w.core.writer.frames;
    w.(core := w.core.(machine := w.core.machine.(pending := Crossed(w.core.machine.pending, frames, count)),
                       writer := w.core.writer.(frames := frames[0 := Moved(frames[0], count)])),
       commits := Credit(w.commits, frames[0].operation, count, count > 0),
       wire := w.wire + TakenBytes(w.core.writer, count))
  }

  function SlackAfter(q: QueuedWrite, count: nat): Slack {
    if q.written + count == q.wire then Full else Tight
  }

  lemma FrontFacts(w: World, g: Ghosts, slack: Slack)
    requires Structured(w, g, slack) && w.core.writer.frames != []
    ensures var pending, frames := w.core.machine.pending, w.core.writer.frames;
      var k := WrittenCount(pending, frames);
      0 <= k < |pending| == |g.order| && Holds(pending[k], frames[0], slack)
      && g.order[k] < |w.commits| && w.commits[g.order[k]].id == pending[k].id == frames[0].operation
      && w.commits[g.order[k]].mode == pending[k].completion
      && w.commits[g.order[k]].frame == frames[0].frame && w.commits[g.order[k]].sent == frames[0].written
      && (w.commits[g.order[k]].touched <==> frames[0].started) && g.cut == g.order[k]
  {
    var pending, frames := w.core.machine.pending, w.core.writer.frames;
    var k := WrittenCount(pending, frames);
    assert Holds(pending[k + 0], frames[0], SlackOf(slack, 0));
    assert w.commits[g.order[k + 0]].frame == frames[0].frame;
    assert Same(w.commits[g.order[k]], pending[k]);
  }

  lemma ProgressShaped(pending: seq<Record>, frames: seq<QueuedWrite>, count: nat)
    requires Shaped(pending, frames, Tight) && frames != []
    requires frames[0].written + count <= frames[0].wire
    ensures Shaped(Crossed(pending, frames, count), frames[0 := Moved(frames[0], count)], SlackAfter(frames[0], count))
  {
    var k := WrittenCount(pending, frames);
    var p, f := Crossed(pending, frames, count), frames[0 := Moved(frames[0], count)];
    var slack := SlackAfter(frames[0], count);
    assert Holds(pending[k + 0], frames[0], Tight);
    assert Holds(p[k], f[0], slack);
    forall j | 0 <= j < |f| ensures Holds(p[k + j], f[j], SlackOf(slack, j)) {
      if j > 0 { assert Holds(pending[k + j], frames[j], SlackOf(Tight, j)); }
    }
    forall i | 0 <= i < k ensures WrittenOut(p[i]) {
      assert WrittenOut(pending[i]);
    }
  }

  lemma ProgressTracked(pending: seq<Record>, frames: seq<QueuedWrite>, count: nat,
                        commits: seq<Commitment>, after: seq<Commitment>, order: seq<nat>)
    requires Ordered(pending, commits, order) && 0 < |frames| <= |pending| && Tracked(pending, frames, commits, order)
    requires OnlyAt(commits, after, order[WrittenCount(pending, frames)])
    requires var c := order[WrittenCount(pending, frames)];
      after[c] == commits[c].(sent := commits[c].sent + count, touched := commits[c].touched || count > 0)
    ensures Ordered(Crossed(pending, frames, count), after, order)
    ensures Tracked(Crossed(pending, frames, count), frames[0 := Moved(frames[0], count)], after, order)
  {
    var k := WrittenCount(pending, frames);
    var p, f := Crossed(pending, frames, count), frames[0 := Moved(frames[0], count)];
    forall i | 0 <= i < |order| ensures order[i] < |after| && Same(after[order[i]], p[i]) {
      assert Same(commits[order[i]], pending[i]);
    }
    forall j | 0 <= j < |f|
      ensures after[order[k + j]].frame == f[j].frame && after[order[k + j]].sent == f[j].written
              && (after[order[k + j]].touched <==> f[j].started)
    {
      assert commits[order[k + j]].frame == frames[j].frame;
    }
  }

  lemma ProgressCut(commits: seq<Commitment>, after: seq<Commitment>, c: nat, count: nat)
    requires CutAt(commits, c) && OnlyAt(commits, after, c)
    requires after[c] == commits[c].(sent := commits[c].sent + count, touched := commits[c].touched || count > 0)
    requires commits[c].sent + count <= |commits[c].frame.bytes|
    ensures CutAt(after, c)
  {
  }

  lemma ProgressStructure(w: World, g: Ghosts, count: nat)
    requires Structured(w, g, Tight) && Identified(w, g.delta) && w.core.writer.frames != []
    requires w.core.writer.frames[0].written + count <= w.core.writer.frames[0].wire
    ensures Structured(Progressed(w, count), g, SlackAfter(w.core.writer.frames[0], count))
  {
    var pending, frames := w.core.machine.pending, w.core.writer.frames;
    var c := g.order[WrittenCount(pending, frames)];
    FrontFacts(w, g, Tight);
    CreditOnlyAt(w.commits, c, count, count > 0);
    ProgressShaped(pending, frames, count);
    hide Shaped, Holds, Same;
    var after := Credit(w.commits, frames[0].operation, count, count > 0);
    ProgressTracked(pending, frames, count, w.commits, after, g.order);
    ProgressCut(w.commits, after, c, count);
  }

  lemma ProgressRecords(w: World, g: Ghosts, count: nat)
    requires Structured(w, g, Tight) && Identified(w, g.delta) && Recorded(w, g) && w.core.writer.frames != []
    requires w.core.writer.frames[0].written + count <= w.core.writer.frames[0].wire
    ensures Recorded(Progressed(w, count), g)
  {
    var pending, frames := w.core.machine.pending, w.core.writer.frames;
    var k := WrittenCount(pending, frames);
    var c := g.order[k];
    var after := Credit(w.commits, frames[0].operation, count, count > 0);
    FrontFacts(w, g, Tight);
    CreditOnlyAt(w.commits, c, count, count > 0);
    if !frames[0].started { FrontUnspoken(w, k, c); }
    CertainCredit(w.trace, w.recovered, w.commits, after, c);
    AnsweredCredit(w.trace, w.commits, after, g.order, c);
    ProgressWire(w, g, count);
    ProgressConserved(w, g, count);
  }

  /** Nothing was said yet about a pending operation that is not a tombstone. */
  lemma FrontUnspoken(w: World, i: nat, c: nat)
    requires Conserved(w) && c < |w.commits| && i < |w.core.machine.pending|
    requires forall a, b :: 0 <= a < b < |w.commits| ==> w.commits[a].id != w.commits[b].id
    requires !w.core.machine.pending[i].phase.Terminal? && w.core.machine.pending[i].id == w.commits[c].id
    ensures forall j :: 0 <= j < |w.trace| ==> !Decides(w.trace[j], w.commits[c].id)
    ensures forall j :: 0 <= j < |w.recovered| ==> w.recovered[j].operation != w.commits[c].id
  {
    forall j | 0 <= j < |w.trace| ensures !Decides(w.trace[j], w.commits[c].id) {
      ActiveUnpublished(w, i, j);
    }
    forall j | 0 <= j < |w.recovered| ensures w.recovered[j].operation != w.commits[c].id {
      ActiveUnpublished(w, i, j);
    }
  }

  lemma AtCut(w: World, g: Ghosts, slack: Slack)
    requires Structured(w, g, slack)
    ensures CutAt(w.commits, g.cut)
  {
  }

  lemma CreditWire(commits: seq<Commitment>, c: nat, count: nat, writer: WriterState)
    requires c < |commits| && CutAt(commits, c) && writer.frames != []
    requires forall a, b :: 0 <= a < b < |commits| ==> commits[a].id != commits[b].id
    requires commits[c].id == writer.frames[0].operation && commits[c].frame == writer.frames[0].frame
    requires commits[c].sent == writer.frames[0].written
    requires writer.frames[0].written + count <= |writer.frames[0].frame.bytes|
    ensures Flatten(Credit(commits, commits[c].id, count, count > 0)) == Flatten(commits) + TakenBytes(writer, count)
  {
    CreditOnlyAt(commits, c, count, count > 0);
    hide Flatten, Credit;
    FlattenProgress(commits, c, count, Credit(commits, commits[c].id, count, count > 0));
  }

  lemma ProgressWire(w: World, g: Ghosts, count: nat)
    requires Structured(w, g, Tight) && Identified(w, g.delta) && w.wire == Flatten(w.commits)
    requires w.core.writer.frames != []
    requires w.core.writer.frames[0].written + count <= w.core.writer.frames[0].wire
    ensures Progressed(w, count).wire == Flatten(Progressed(w, count).commits)
  {
    FrontFacts(w, g, Tight);
    AtCut(w, g, Tight);
    hide Flatten, Structured, Credit, TakenBytes, CutAt, Crossed;
    CreditWire(w.commits, g.cut, count, w.core.writer);
  }

  lemma CreditIds(commits: seq<Commitment>, id: OperationId, count: nat, touched: bool)
    ensures CommitIds(Credit(commits, id, count, touched)) == CommitIds(commits)
  {
  }

  lemma ProgressConserved(w: World, g: Ghosts, count: nat)
    requires Structured(w, g, Tight) && Conserved(w) && w.core.writer.frames != []
    ensures Conserved(Progressed(w, count))
  {
    var pending, frames := w.core.machine.pending, w.core.writer.frames;
    var k := WrittenCount(pending, frames);
    FrontFacts(w, g, Tight);
    CreditIds(w.commits, frames[0].operation, count, count > 0);
    hide ActiveBag, OutcomeIds, RecoveredBag, CommitIds, Structured;
    ActiveAt(pending, k, pending[k]);
    ActiveAt(pending, k, Begun(pending[k]));
  }

  /** A record that keeps its reservation and its frame claims what it claimed before. */
  lemma SameClaims(permits: seq<Permit>, pending: seq<Record>, i: nat, r: Record)
    requires i < |pending| && r.reservation == pending[i].reservation && r.writeHeld == pending[i].writeHeld
    ensures Claims(permits, pending[i := r]) == Claims(permits, pending)
  {
    assert RecordClaims(pending[i := r]) == RecordClaims(pending);
  }

  lemma ProgressAccounts(w: World, g: Ghosts, count: nat)
    requires Structured(w, g, Tight) && Accounted(w) && w.core.writer.frames != []
    ensures Accounted(Progressed(w, count))
  {
    var pending, frames := w.core.machine.pending, w.core.writer.frames;
    var k := WrittenCount(pending, frames);
    FrontFacts(w, g, Tight);
    hide Structured, Balanced, RetainedSum, Claims, Credit, Holds;
    RetainedReplace(frames, 0, Moved(frames[0], count));
    SameClaims(w.permits, pending, k, Begun(pending[k]));
  }

  lemma ProgressIdentities(w: World, g: Ghosts, count: nat)
    requires Structured(w, g, Tight) && Identified(w, g.delta) && w.core.writer.frames != []
    ensures Identified(Progressed(w, count), g.delta)
  {
    var pending, frames := w.core.machine.pending, w.core.writer.frames;
    var c := g.order[WrittenCount(pending, frames)];
    FrontFacts(w, g, Tight);
    CreditOnlyAt(w.commits, c, count, count > 0);
    hide Identified, Structured, OnlyAt, Credit;
    IdentifiedCredit(w, g.delta, Progressed(w, count), c);
  }

  /** An exact report keeps every fact, and the wire gains exactly the bytes reported. */
  lemma ProgressKeeps(w: World, g: Ghosts, count: nat)
    requires Sound(w, g, Tight) && w.core.writer.frames != []
    requires w.core.writer.frames[0].written + count <= w.core.writer.frames[0].wire
    ensures Sound(Progressed(w, count), g, SlackAfter(w.core.writer.frames[0], count))
  {
    FrontFacts(w, g, Tight);
    hide Identified, Structured, Accounted, Recorded, Closures, Credit;
    ProgressStructure(w, g, count);
    ProgressRecords(w, g, count);
    ProgressAccounts(w, g, count);
    ProgressIdentities(w, g, count);
  }
}
