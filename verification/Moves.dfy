/** The few ways a step changes what an owner holds, and what each keeps. */
module Moves {
  import opened Primitives
  import opened KeySet
  import opened Ledger
  import opened Operations
  import opened Writer
  import opened Journal
  import opened Recovery
  import opened Core
  import opened World
  import Machine

  // --------------------------------------------------------------- bags of identities

  lemma {:induction false} ActiveConcat(a: seq<Record>, b: seq<Record>)
    ensures ActiveBag(a + b) == ActiveBag(a) + ActiveBag(b)
  {
    if b == [] {
      assert a + b == a;
    } else {
      var front, last := b[..|b| - 1], b[|b| - 1];
      ActiveConcat(a, front);
      assert (a + b)[..|a + b| - 1] == a + front && (a + b)[|a + b| - 1] == last;
    }
  }

  function ActiveOne(r: Record): multiset<OperationId> {
    if r.phase.Terminal? then multiset{} else multiset{r.id}
  }

  lemma ActiveSingle(r: Record)
    ensures ActiveBag([r]) == ActiveOne(r)
  {
    assert [r][..0] == [];
  }

  lemma ActiveAt(pending: seq<Record>, i: nat, r: Record)
    requires i < |pending|
    ensures ActiveBag(pending) == ActiveBag(RemoveAt(pending, i)) + ActiveOne(pending[i])
    ensures ActiveBag(pending[i := r]) == ActiveBag(RemoveAt(pending, i)) + ActiveOne(r)
  {
    hide ActiveBag;
    var before, after := pending[..i], pending[i + 1..];
    ActiveConcat(before, after);
    ActiveConcat(before, [pending[i]]);
    ActiveConcat(before + [pending[i]], after);
    ActiveConcat(before, [r]);
    ActiveConcat(before + [r], after);
    ActiveSingle(pending[i]);
    ActiveSingle(r);
    assert pending == before + [pending[i]] + after;
    assert pending[i := r] == before + [r] + after;
  }

  function OutcomeOne(e: Effect): multiset<OperationId> {
    if e.PublishOutcome? then multiset{e.operation} else multiset{}
  }

  lemma {:induction false} OutcomeConcat(a: seq<Effect>, b: seq<Effect>)
    ensures OutcomeIds(a + b) == OutcomeIds(a) + OutcomeIds(b)
  {
    if b == [] {
      assert a + b == a;
    } else {
      var front, last := b[..|b| - 1], b[|b| - 1];
      OutcomeConcat(a, front);
      assert (a + b)[..|a + b| - 1] == a + front && (a + b)[|a + b| - 1] == last;
    }
  }

  lemma OutcomeSingle(e: Effect)
    ensures OutcomeIds([e]) == OutcomeOne(e)
  {
    assert [e][..0] == [];
  }

  lemma {:induction false} ClosuresConcat(a: seq<Effect>, b: seq<Effect>)
    ensures Closures(a + b) == Closures(a) + Closures(b)
  {
    if b == [] {
      assert a + b == a;
    } else {
      var front, last := b[..|b| - 1], b[|b| - 1];
      ClosuresConcat(a, front);
      assert (a + b)[..|a + b| - 1] == a + front && (a + b)[|a + b| - 1] == last;
    }
  }

  lemma {:induction false} PublishedMember(trace: seq<Effect>, j: nat)
    requires j < |trace| && trace[j].PublishOutcome?
    ensures trace[j].operation in OutcomeIds(trace)
  {
    if j < |trace| - 1 {
      PublishedMember(trace[..|trace| - 1], j);
    }
  }

  lemma {:induction false} ActiveMember(pending: seq<Record>, i: nat)
    requires i < |pending| && !pending[i].phase.Terminal?
    ensures pending[i].id in ActiveBag(pending)
  {
    if i < |pending| - 1 {
      ActiveMember(pending[..|pending| - 1], i);
    }
  }

  /** An identity accepted at most once cannot both be pending and already have an outcome. */
  lemma ActiveUnpublished(w: World, i: nat, j: nat)
    requires Conserved(w)
    requires forall a, b :: 0 <= a < b < |w.commits| ==> w.commits[a].id != w.commits[b].id
    requires i < |w.core.machine.pending| && !w.core.machine.pending[i].phase.Terminal?
    ensures j < |w.trace| && w.trace[j].PublishOutcome? ==> w.trace[j].operation != w.core.machine.pending[i].id
    ensures j < |w.recovered| ==> w.recovered[j].operation != w.core.machine.pending[i].id
  {
    var id := w.core.machine.pending[i].id;
    ActiveMember(w.core.machine.pending, i);
    DistinctBag(CommitIds(w.commits), id);
    if j < |w.trace| && w.trace[j].PublishOutcome? { PublishedMember(w.trace, j); }
    if j < |w.recovered| {
      assert RecoveredIds(w.recovered)[j] in multiset(RecoveredIds(w.recovered));
    }
  }

  lemma {:induction false} DistinctBag(ids: seq<OperationId>, id: OperationId)
    requires forall a, b :: 0 <= a < b < |ids| ==> ids[a] != ids[b]
    ensures multiset(ids)[id] <= 1
  {
    if ids != [] {
      var front, last := ids[..|ids| - 1], ids[|ids| - 1];
      DistinctBag(front, id);
      assert ids == front + [last];
      if last == id { assert id !in front; }
    }
  }

  // --------------------------------------------------------------- bytes on the wire

  lemma {:induction false} FlattenUnsent(commits: seq<Commitment>, from: nat)
    requires from <= |commits|
    requires forall i :: from <= i < |commits| ==> commits[i].sent == 0
    ensures Flatten(commits) == Flatten(commits[..from])
  {
    if from < |commits| {
      var front := commits[..|commits| - 1];
      FlattenUnsent(front, from);
      assert front[..from] == commits[..from];
      assert Contribution(commits[|commits| - 1]) == [];
    } else {
      assert commits[..from] == commits;
    }
  }

  lemma FlattenUpTo(commits: seq<Commitment>, c: nat)
    requires c < |commits|
    requires forall i :: c < i < |commits| ==> commits[i].sent == 0
    ensures Flatten(commits) == Flatten(commits[..c]) + Contribution(commits[c])
  {
    hide Contribution;
    var front := commits[..c + 1];
    FlattenUnsent(commits, c + 1);
    FlattenLast(front);
    assert front[..c] == commits[..c] && front[c] == commits[c];
  }

  lemma FlattenLast(commits: seq<Commitment>)
    requires commits != []
    ensures Flatten(commits) == Flatten(commits[..|commits| - 1]) + Contribution(commits[|commits| - 1])
  {
    hide Contribution;
  }

  /** Moving the bytes of the last started commitment appends them to the wire. */
  lemma FlattenProgress(commits: seq<Commitment>, c: nat, count: nat, after: seq<Commitment>)
    requires c < |commits| == |after|
    requires forall i :: 0 <= i < |commits| && i != c ==> after[i] == commits[i]
    requires after[c].frame == commits[c].frame && after[c].sent == commits[c].sent + count <= |commits[c].frame.bytes|
    requires forall i :: c < i < |commits| ==> commits[i].sent == 0
    ensures Flatten(after) == Flatten(commits) + commits[c].frame.bytes[commits[c].sent..commits[c].sent + count]
  {
    hide Flatten, Contribution;
    var moved := commits[c].frame.bytes[commits[c].sent..commits[c].sent + count];
    FlattenUpTo(commits, c);
    FlattenUpTo(after, c);
    SamePrefix(commits, after, c);
    ContributionGrows(commits[c], after[c], count);
    Regroup(Flatten(commits[..c]), Contribution(commits[c]), moved);
  }

  lemma SamePrefix(commits: seq<Commitment>, after: seq<Commitment>, c: nat)
    requires c < |commits| == |after| && forall i :: 0 <= i < c ==> after[i] == commits[i]
    ensures after[..c] == commits[..c]
  {
  }

  lemma Regroup(a: seq<Byte>, b: seq<Byte>, c: seq<Byte>)
    ensures a + (b + c) == a + b + c
  {
  }

  lemma ContributionGrows(c: Commitment, after: Commitment, count: nat)
    requires after.frame == c.frame && after.sent == c.sent + count <= |c.frame.bytes|
    ensures Contribution(after) == Contribution(c) + c.frame.bytes[c.sent..c.sent + count]
  {
  }

  lemma FlattenSame(commits: seq<Commitment>, after: seq<Commitment>)
    requires |commits| == |after|
    requires forall i :: 0 <= i < |commits| ==> after[i].frame == commits[i].frame && after[i].sent == commits[i].sent
    ensures Flatten(after) == Flatten(commits)
  {
    if commits != [] {
      FlattenSame(commits[..|commits| - 1], after[..|after| - 1]);
    }
  }

  // --------------------------------------------------------------- removing one record

  /** The frames left when the record at `i` goes, with its frame if it still held one. */
  function FramesWithout(pending: seq<Record>, frames: seq<QueuedWrite>, i: nat): seq<QueuedWrite>
    requires i < |pending| && |frames| <= |pending|
  {
    var k := WrittenCount(pending, frames);
    if i < k then frames else RemoveAt(frames, i - k)
  }

  lemma RemoveOrdered(pending: seq<Record>, commits: seq<Commitment>, order: seq<nat>, i: nat)
    requires Ordered(pending, commits, order) && i < |pending|
    ensures Ordered(RemoveAt(pending, i), commits, RemoveAt(order, i))
  {
    var p, o := RemoveAt(pending, i), RemoveAt(order, i);
    forall a, b | 0 <= a < b < |o| ensures o[a] < o[b] {
      assert o[a] == order[if a < i then a else a + 1] && o[b] == order[if b < i then b else b + 1];
    }
  }

  lemma RemoveShaped(pending: seq<Record>, frames: seq<QueuedWrite>, slack: Slack, i: nat)
    requires Shaped(pending, frames, slack) && i < |pending|
    requires slack.Tight? || (slack.Full? && i == WrittenCount(pending, frames))
    ensures Shaped(RemoveAt(pending, i), FramesWithout(pending, frames, i), Tight)
    ensures pending[i].writeHeld <==> WrittenCount(pending, frames) <= i
  {
    if i < WrittenCount(pending, frames) {
      RemoveWritten(pending, frames, slack, i);
    } else {
      RemoveHeld(pending, frames, slack, i);
    }
  }

  /** Exactly the records of the held suffix own a frame. */
  lemma HeldFrom(pending: seq<Record>, frames: seq<QueuedWrite>, slack: Slack, i: nat)
    requires Shaped(pending, frames, slack) && i < |pending|
    ensures pending[i].writeHeld <==> WrittenCount(pending, frames) <= i
  {
    var k := WrittenCount(pending, frames);
    if k <= i {
      assert Holds(pending[k + (i - k)], frames[i - k], SlackOf(slack, i - k));
    } else {
      assert WrittenOut(pending[i]);
    }
  }

  lemma RemoveWritten(pending: seq<Record>, frames: seq<QueuedWrite>, slack: Slack, i: nat)
    requires Shaped(pending, frames, slack) && slack.Tight? && i < WrittenCount(pending, frames)
    ensures Shaped(RemoveAt(pending, i), frames, Tight) && !pending[i].writeHeld
  {
    hide Holds;
    var k, p := WrittenCount(pending, frames), RemoveAt(pending, i);
    assert WrittenOut(pending[i]);
    forall j | 0 <= j < |frames| ensures Holds(p[k - 1 + j], frames[j], Tight) {
      assert Holds(pending[k + j], frames[j], SlackOf(slack, j));
      assert p[k - 1 + j] == pending[k + j];
    }
  }

  lemma RemoveHeld(pending: seq<Record>, frames: seq<QueuedWrite>, slack: Slack, i: nat)
    requires Shaped(pending, frames, slack) && WrittenCount(pending, frames) <= i < |pending|
    requires slack.Tight? || (slack.Full? && i == WrittenCount(pending, frames))
    ensures Shaped(RemoveAt(pending, i), RemoveAt(frames, i - WrittenCount(pending, frames)), Tight) && pending[i].writeHeld
  {
    var k := WrittenCount(pending, frames);
    var p, f := RemoveAt(pending, i), RemoveAt(frames, i - k);
    assert Holds(pending[k + (i - k)], frames[i - k], SlackOf(slack, i - k));
    hide Holds;
    forall j | 0 <= j < |f| ensures Holds(p[k + j], f[j], Tight) && (1 <= j ==> !f[j].started) {
      var was := if j < i - k then j else j + 1;
      assert Holds(pending[k + was], frames[was], SlackOf(slack, was));
      assert p[k + j] == pending[k + was] && f[j] == frames[was];
    }
  }

  lemma RemoveTracked(pending: seq<Record>, frames: seq<QueuedWrite>, commits: seq<Commitment>, order: seq<nat>, i: nat)
    requires |order| == |pending| && |frames| <= |pending| && i < |pending|
    requires forall a :: 0 <= a < |order| ==> order[a] < |commits|
    requires Tracked(pending, frames, commits, order)
    ensures |FramesWithout(pending, frames, i)| <= |pending| - 1
    ensures Tracked(RemoveAt(pending, i), FramesWithout(pending, frames, i), commits, RemoveAt(order, i))
  {
    var k := WrittenCount(pending, frames);
    var p, f, o := RemoveAt(pending, i), FramesWithout(pending, frames, i), RemoveAt(order, i);
    var k' := WrittenCount(p, f);
    forall a | 0 <= a < k' ensures Whole(commits[o[a]]) && (commits[o[a]].touched <==> p[a].delivery.PossiblySent?) {
      var was := if a < i then a else a + 1;
      assert o[a] == order[was] && p[a] == pending[was];
    }
    forall j | 0 <= j < |f|
      ensures commits[o[k' + j]].frame == f[j].frame && commits[o[k' + j]].sent == f[j].written
              && (commits[o[k' + j]].touched <==> f[j].started)
    {
      var was := if i < k || j < i - k then j else j + 1;
      assert f[j] == frames[was];
      assert o[k' + j] == order[k + was];
    }
  }

  /** Removing an unsent or completely sent record leaves the wire cut where it belongs. */
  lemma RemoveCut(pending: seq<Record>, frames: seq<QueuedWrite>, commits: seq<Commitment>, order: seq<nat>,
                  slack: Slack, i: nat)
    requires Ordered(pending, commits, order) && Shaped(pending, frames, slack)
    requires Tracked(pending, frames, commits, order) && i < |pending|
    requires CutAt(commits, Cut(pending, frames, commits, order))
    requires WrittenCount(pending, frames) <= i ==>
      frames[i - WrittenCount(pending, frames)].written == 0 || (slack.Full? && i == WrittenCount(pending, frames))
    requires slack.Tight? || (slack.Full? && i == WrittenCount(pending, frames))
    ensures CutAt(commits, Cut(RemoveAt(pending, i), FramesWithout(pending, frames, i), commits, RemoveAt(order, i)))
  {
    var k := WrittenCount(pending, frames);
    if i < k {
      CutBelow(pending, frames, commits, order, i);
    } else {
      assert Holds(pending[k + (i - k)], frames[i - k], SlackOf(slack, i - k));
      assert commits[order[k + (i - k)]].frame == frames[i - k].frame;
      hide Holds, Shaped;
      CutMoves(pending, frames, commits, order, i);
    }
  }

  lemma CutBelow(pending: seq<Record>, frames: seq<QueuedWrite>, commits: seq<Commitment>, order: seq<nat>, i: nat)
    requires |order| == |pending| && |frames| <= |pending| && i < WrittenCount(pending, frames)
    ensures Cut(RemoveAt(pending, i), frames, commits, RemoveAt(order, i)) == Cut(pending, frames, commits, order)
  {
  }

  lemma CutMoves(pending: seq<Record>, frames: seq<QueuedWrite>, commits: seq<Commitment>, order: seq<nat>, i: nat)
    requires Ordered(pending, commits, order) && |frames| <= |pending| && WrittenCount(pending, frames) <= i < |pending|
    requires CutAt(commits, Cut(pending, frames, commits, order))
    requires commits[order[i]].sent == 0 || (Whole(commits[order[i]]) && i == WrittenCount(pending, frames))
    ensures CutAt(commits, Cut(RemoveAt(pending, i), FramesWithout(pending, frames, i), commits, RemoveAt(order, i)))
  {
    var k := WrittenCount(pending, frames);
    var f, o := FramesWithout(pending, frames, i), RemoveAt(order, i);
    if i == k {
      if f != [] { assert o[k] == order[k + 1]; }
    } else {
      assert o[k] == order[k];
    }
  }

  /** The claims of the remaining holders. */
  lemma RemoveClaims(permits: seq<Permit>, pending: seq<Record>, i: nat)
    requires i < |pending|
    ensures Claims(permits, RemoveAt(pending, i)) == RemoveAt(Claims(permits, pending), |permits| + i)
    ensures Claims(permits, pending)[|permits| + i] == Claim(pending[i].reservation, pending[i].writeHeld, false)
  {
    var all := RemoveAt(Claims(permits, pending), |permits| + i);
    var rest := Claims(permits, RemoveAt(pending, i));
    forall j | 0 <= j < |rest| ensures rest[j] == all[j] {
      if |permits| <= j {
        assert rest[j] == RecordClaims(RemoveAt(pending, i))[j - |permits|];
      }
    }
  }

  lemma UpdateClaims(permits: seq<Permit>, pending: seq<Record>, i: nat, r: Record)
    requires i < |pending|
    ensures Claims(permits, pending[i := r])
         == Claims(permits, pending)[|permits| + i := Claim(r.reservation, r.writeHeld, false)]
    ensures Claims(permits, pending)[|permits| + i] == Claim(pending[i].reservation, pending[i].writeHeld, false)
  {
  }

  lemma RemovePermitClaims(permits: seq<Permit>, pending: seq<Record>, i: nat)
    requires i < |permits|
    ensures Claims(RemoveAt(permits, i), pending) == RemoveAt(Claims(permits, pending), i)
    ensures Claims(permits, pending)[i] == Claim(permits[i].reservation, true, true)
  {
    var all := RemoveAt(Claims(permits, pending), i);
    var rest := Claims(RemoveAt(permits, i), pending);
    forall j | 0 <= j < |rest| ensures rest[j] == all[j] {
      if j < |permits| - 1 {
        assert rest[j] == PermitClaims(RemoveAt(permits, i))[j];
      } else {
        assert all[j] == RecordClaims(pending)[j - (|permits| - 1)];
      }
    }
  }

  // --------------------------------------------------------------- the trace grows

  /** What an outcome must say about the commitment it decides. */
  ghost predicate Truthful(e: Effect, commits: seq<Commitment>) {
    forall c :: 0 <= c < |commits| && Decides(e, commits[c].id) ==>
      (OutcomeDelivery(e.outcome).value.PossiblySent? <==> commits[c].touched)
  }

  lemma CertainExtends(
    trace: seq<Effect>, more: seq<Effect>, recovered: seq<RecoveredOperation>, commits: seq<Commitment>)
    requires Certain(trace, recovered, commits)
    requires forall j :: 0 <= j < |more| ==> Truthful(more[j], commits)
    ensures Certain(trace + more, recovered, commits)
  {
    var all := trace + more;
    forall j, c | 0 <= j < |all| && 0 <= c < |commits| && Decides(all[j], commits[c].id)
      ensures OutcomeDelivery(all[j].outcome).value.PossiblySent? <==> commits[c].touched
    {
      if |trace| <= j {
        assert Truthful(more[j - |trace|], commits);
      }
    }
  }

  predicate IsReply(e: Effect) {
    e.PublishOutcome? && e.outcome.Reply?
  }

  /** Effects without a reply keep the order of replies, whichever records they removed. */
  lemma AnsweredExtends(
    trace: seq<Effect>, more: seq<Effect>, commits: seq<Commitment>, order: seq<nat>, left: seq<nat>)
    requires Answered(trace, commits, order)
    requires forall j :: 0 <= j < |more| ==> !IsReply(more[j])
    requires forall i :: 0 <= i < |left| ==> left[i] in order
    ensures Answered(trace + more, commits, left)
  {
    var all := trace + more;
    forall j | |trace| <= j < |all| ensures !IsReply(all[j]) {
      assert all[j] == more[j - |trace|];
    }
    forall j, c | 0 <= j < |all| && 0 <= c < |commits| && Answers(all[j], commits[c].id)
      ensures Whole(commits[c]) && commits[c].mode.ReplyExpected? && (forall i :: 0 <= i < |left| ==> c < left[i])
    {
      assert Answers(trace[j], commits[c].id);
    }
    forall j, k, c, d | 0 <= j < k < |all| && 0 <= c < |commits| && 0 <= d < |commits|
      ensures !(d <= c && Answers(all[j], commits[c].id) && Answers(all[k], commits[d].id))
    {
      assert k < |trace| || !IsReply(all[k]);
    }
  }

  /** A reply to the oldest pending operation comes after every earlier reply. */
  lemma AnsweredReply(trace: seq<Effect>, e: Effect, commits: seq<Commitment>, order: seq<nat>)
    requires Answered(trace, commits, order) && order != [] && order[0] < |commits|
    requires forall i, j :: 0 <= i < j < |order| ==> order[i] < order[j]
    requires forall a, b :: 0 <= a < b < |commits| ==> commits[a].id != commits[b].id
    requires IsReply(e) && e.operation == commits[order[0]].id
    requires Whole(commits[order[0]]) && commits[order[0]].mode.ReplyExpected?
    ensures Answered(trace + [e], commits, order[1..])
  {
    var all, left := trace + [e], order[1..];
    forall j, c | 0 <= j < |all| && 0 <= c < |commits| && Answers(all[j], commits[c].id)
      ensures Whole(commits[c]) && commits[c].mode.ReplyExpected? && (forall i :: 0 <= i < |left| ==> c < left[i])
    {
      if j == |trace| {
        assert c == order[0];
      } else {
        assert Answers(trace[j], commits[c].id);
        forall i | 0 <= i < |left| ensures c < left[i] { assert left[i] == order[i + 1]; }
      }
    }
    forall j, k, c, d | 0 <= j < k < |all| && 0 <= c < |commits| && 0 <= d < |commits|
      ensures !(d <= c && Answers(all[j], commits[c].id) && Answers(all[k], commits[d].id))
    {
      if k == |trace| && Answers(all[j], commits[c].id) && Answers(all[k], commits[d].id) {
        assert d == order[0];
        assert Answers(trace[j], commits[c].id);
        assert c < order[0];
      }
    }
  }

  /** Policy and history agree on whether bytes of a pending record were reported. */
  lemma TouchedExactly(w: World, g: Ghosts, slack: Slack, i: nat)
    requires Structured(w, g, slack) && !slack.Loose? && i < |w.core.machine.pending|
    ensures w.commits[g.order[i]].touched <==> w.core.machine.pending[i].delivery.PossiblySent?
    ensures w.commits[g.order[i]].id == w.core.machine.pending[i].id
  {
    var pending, frames := w.core.machine.pending, w.core.writer.frames;
    var k := WrittenCount(pending, frames);
    assert Same(w.commits[g.order[i]], pending[i]);
    if k <= i {
      assert Holds(pending[k + (i - k)], frames[i - k], SlackOf(slack, i - k));
      assert w.commits[g.order[k + (i - k)]].touched <==> frames[i - k].started;
    }
  }

  // --------------------------------------------------------------- what the owner hands out

  /** Frame removals stay inside the owner; everything else is the caller's. */
  function Visible(effects: seq<Effect>): seq<Effect> {
    if effects == [] then []
    else Visible(effects[..|effects| - 1])
         + (if effects[|effects| - 1].DiscardWrite? then [] else [effects[|effects| - 1]])
  }

  lemma {:induction false} VisibleConcat(a: seq<Effect>, b: seq<Effect>)
    ensures Visible(a + b) == Visible(a) + Visible(b)
  {
    if b == [] {
      assert a + b == a;
    } else {
      var front, last := b[..|b| - 1], b[|b| - 1];
      VisibleConcat(a, front);
      assert (a + b)[..|a + b| - 1] == a + front && (a + b)[|a + b| - 1] == last;
    }
  }

  lemma VisibleOne(e: Effect)
    ensures Visible([e]) == if e.DiscardWrite? then [] else [e]
  {
    assert [e][..0] == [];
  }

  lemma {:induction false} NoClosures(effects: seq<Effect>)
    requires forall j :: 0 <= j < |effects| ==> !effects[j].CloseEpoch?
    ensures Closures(effects) == 0
  {
    if effects != [] {
      NoClosures(effects[..|effects| - 1]);
    }
  }
}
