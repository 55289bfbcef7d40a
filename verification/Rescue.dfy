/** Recovering an owner between calls, healthy or broken by an over-report, gives back exactly its
    unfinished operations with their own frames. */
module Rescue {
  import opened Primitives
  import opened KeySet
  import opened Ledger
  import opened Operations
  import opened Writer
  import opened Journal
  import opened Recovery
  import opened Core
  import opened World
  import opened Moves
  import opened Closure
  import Machine

  function Policies(pending: seq<Record>): (r: seq<Survivor>)
    ensures |r| == |pending|
    ensures forall i :: 0 <= i < |pending| ==> r[i] == FromPolicy(pending[i])
  {
    seq(|pending|, i requires 0 <= i < |pending| => FromPolicy(pending[i]))
  }

  lemma {:induction false} MergeNothing(w: nat, n: nat, current: seq<Record>)
    requires w + |current| == n
    ensures MergeFrom(w, n, [], current, {}) == Merged(Policies(current), false)
    decreases |current|
  {
    if current == [] {
      assert Leftover([], current) == [];
    } else {
      MergeNothing(w + 1, n, current[1..]);
      assert RemoveAt(current, 0) == current[1..];
      assert Policies(current) == [FromPolicy(current[0])] + Policies(current[1..]);
    }
  }

  lemma MergeIdle(current: seq<Record>)
    ensures Merge([], current) == Merged(Policies(current), false)
  {
    MergeNothing(0, |current|, current);
    assert JournalIds([]) == {};
  }

  // --------------------------------------------------------------- each record with its own frame

  /** The frame the `i`-th pending record still owns. */
  function OwnFrame(pending: seq<Record>, frames: seq<QueuedWrite>, i: nat): Option<QueuedWrite>
    requires i < |pending| && |frames| <= |pending|
  {
    var k := WrittenCount(pending, frames);
    if k <= i then Some(frames[i - k]) else None
  }

  function HandedOne(pending: seq<Record>, frames: seq<QueuedWrite>, i: nat): seq<RecoveredOperation>
    requires i < |pending| && |frames| <= |pending|
  {
    var r := pending[i];
    if r.phase.Terminal? then []
    else
      match OwnFrame(pending, frames, i)
      case None => [RecoveredOperation(r.id, r.delivery, None)]
      case Some(q) => [RecoveredOperation(r.id, if q.started then PossiblySent else r.delivery, Some(q.frame))]
  }

  /** The unfinished operations among the first `n`, each with the frame it still owned. */
  function Handed(pending: seq<Record>, frames: seq<QueuedWrite>, n: nat): seq<RecoveredOperation>
    requires n <= |pending| && |frames| <= |pending|
  {
    if n == 0 then [] else Handed(pending, frames, n - 1) + HandedOne(pending, frames, n - 1)
  }

  /** Frames whose record was not restored yet. */
  function FramesFrom(pending: seq<Record>, frames: seq<QueuedWrite>, n: nat): seq<QueuedWrite>
    requires n <= |pending| && |frames| <= |pending|
  {
    var k := WrittenCount(pending, frames);
    if n < k then frames else frames[n - k..]
  }

  lemma OwnWrite(pending: seq<Record>, frames: seq<QueuedWrite>, slack: Slack, i: nat)
    requires Shaped(pending, frames, slack) && DistinctIds(pending) && i < |pending|
    ensures WriteIndex(AllDiscarded(FramesFrom(pending, frames, i)), pending[i].id, pending[i].effect)
         == if WrittenCount(pending, frames) <= i then Some(0) else None
    ensures pending[i].writeHeld <==> WrittenCount(pending, frames) <= i
  {
    var k := WrittenCount(pending, frames);
    var writes := AllDiscarded(FramesFrom(pending, frames, i));
    if k <= i {
      assert Holds(pending[k + (i - k)], frames[i - k], SlackOf(slack, i - k));
      assert writes[0] == AsDiscarded(frames[i - k]);
    } else {
      assert WrittenOut(pending[i]);
      forall j | 0 <= j < |writes| ensures writes[j].operation != pending[i].id {
        assert Holds(pending[k + j], frames[j], SlackOf(slack, j));
        assert writes[j] == AsDiscarded(frames[j]);
      }
    }
  }

  lemma FramesNext(pending: seq<Record>, frames: seq<QueuedWrite>, i: nat)
    requires i < |pending| && |frames| <= |pending|
    ensures var k := WrittenCount(pending, frames);
      AllDiscarded(FramesFrom(pending, frames, i + 1))
        == if k <= i then RemoveAt(AllDiscarded(FramesFrom(pending, frames, i)), 0)
           else AllDiscarded(FramesFrom(pending, frames, i))
  {
  }

  /** A record without a queued frame is restored as it is, one with the first frame together with it. */
  lemma RestoredPlain(s: Restoring, r: Record)
    requires WriteIndex(s.writes, r.id, r.effect).None? && !r.writeHeld
    ensures RestoreOne(s, FromPolicy(r))
         == Restoring(s.writes,
              s.operations + if r.phase.Terminal? then [] else [RecoveredOperation(r.id, r.delivery, None)],
              Release(s.ledger, r.reservation, r.writeHeld, false), s.diverged)
  {
    hide WriteIndex, Release;
  }

  lemma RestoredFront(s: Restoring, r: Record, q: QueuedWrite)
    requires WriteIndex(s.writes, r.id, r.effect) == Some(0) && r.writeHeld && s.writes != [] && s.writes[0] == AsDiscarded(q)
    ensures RestoreOne(s, FromPolicy(r))
         == Restoring(RemoveAt(s.writes, 0),
              s.operations + if r.phase.Terminal? then []
                else [RecoveredOperation(r.id, if q.started then PossiblySent else r.delivery, Some(q.frame))],
              Release(s.ledger, r.reservation, r.writeHeld, false), s.diverged)
  {
    hide WriteIndex, Release, RemoveAt;
  }

  lemma HandedNext(pending: seq<Record>, frames: seq<QueuedWrite>, i: nat)
    requires i < |pending| && |frames| <= |pending|
    ensures var k, r := WrittenCount(pending, frames), pending[i];
      Handed(pending, frames, i + 1) == Handed(pending, frames, i)
        + if r.phase.Terminal? then []
          else if i < k then [RecoveredOperation(r.id, r.delivery, None)]
          else
            var q := frames[i - k];
            [RecoveredOperation(r.id, if q.started then PossiblySent else r.delivery, Some(q.frame))]
    ensures var k := WrittenCount(pending, frames);
      k <= i ==> FramesFrom(pending, frames, i) != [] && FramesFrom(pending, frames, i)[0] == frames[i - k]
  {
  }

  /** Restoring the `i`-th record when everything before it was restored. */
  lemma RestoringStep(s: Restoring, pending: seq<Record>, frames: seq<QueuedWrite>, slack: Slack, i: nat)
    requires Shaped(pending, frames, slack) && DistinctIds(pending) && i < |pending|
    requires s.writes == AllDiscarded(FramesFrom(pending, frames, i)) && s.operations == Handed(pending, frames, i)
    ensures RestoreOne(s, FromPolicy(pending[i]))
         == Restoring(AllDiscarded(FramesFrom(pending, frames, i + 1)), Handed(pending, frames, i + 1),
                      Release(s.ledger, pending[i].reservation, pending[i].writeHeld, false), s.diverged)
  {
    hide WriteIndex, Release, DistinctIds, Handed, HandedOne, FramesFrom, RestoreOne, RemoveAt;
    OwnWrite(pending, frames, slack, i);
    FramesNext(pending, frames, i);
    HandedNext(pending, frames, i);
    var k := WrittenCount(pending, frames);
    if k <= i {
      RestoredFront(s, pending[i], frames[i - k]);
    } else {
      RestoredPlain(s, pending[i]);
    }
  }

  lemma {:induction false} RestoringShaped(
    s: Restoring, pending: seq<Record>, frames: seq<QueuedWrite>, slack: Slack, n: nat)
    requires Shaped(pending, frames, slack) && DistinctIds(pending) && n <= |pending|
    requires s.writes == AllDiscarded(frames) && s.operations == []
    ensures RestoreAll(s, Policies(pending[..n]))
         == Restoring(AllDiscarded(FramesFrom(pending, frames, n)), Handed(pending, frames, n),
                      Machine.ReleaseEach(s.ledger, pending[..n]), s.diverged)
  {
    hide DistinctIds, RestoreOne, RestoreAll, Release, Machine.ReleaseEach, Handed, FramesFrom, Policies, Holds;
    if n == 0 {
      RestoringNone(s, pending, frames);
    } else {
      var i := n - 1;
      RestoringShaped(s, pending, frames, slack, i);
      RestoringStep(RestoreAll(s, Policies(pending[..i])), pending, frames, slack, i);
      RestoringNext(s, pending, i);
    }
  }

  lemma RestoringNone(s: Restoring, pending: seq<Record>, frames: seq<QueuedWrite>)
    requires |frames| <= |pending|
    ensures RestoreAll(s, Policies(pending[..0])) == s && Handed(pending, frames, 0) == []
    ensures FramesFrom(pending, frames, 0) == frames && Machine.ReleaseEach(s.ledger, pending[..0]) == s.ledger
  {
    assert pending[..0] == [] && Policies([]) == [];
    FramesFromZero(pending, frames);
  }

  lemma RestoringNext(s: Restoring, pending: seq<Record>, i: nat)
    requires i < |pending|
    ensures RestoreAll(s, Policies(pending[..i + 1]))
         == RestoreOne(RestoreAll(s, Policies(pending[..i])), FromPolicy(pending[i]))
    ensures Machine.ReleaseEach(s.ledger, pending[..i + 1])
         == Release(Machine.ReleaseEach(s.ledger, pending[..i]), pending[i].reservation, pending[i].writeHeld, false)
  {
    hide RestoreOne, Release;
    var all := pending[..i + 1];
    assert Policies(all)[..i] == Policies(pending[..i]) && all[..i] == pending[..i];
  }

  lemma FramesFromZero(pending: seq<Record>, frames: seq<QueuedWrite>)
    requires |frames| <= |pending|
    ensures FramesFrom(pending, frames, 0) == frames
  {
  }

  lemma PendingDistinct(w: World, g: Ghosts)
    requires Ordered(w.core.machine.pending, w.commits, g.order) && Identified(w, g.delta)
    ensures DistinctIds(w.core.machine.pending)
  {
    var pending := w.core.machine.pending;
    forall i, j | 0 <= i < j < |pending| ensures pending[i].id != pending[j].id {
      assert Same(w.commits[g.order[i]], pending[i]) && Same(w.commits[g.order[j]], pending[j]);
    }
  }

  /** The world after recovery. */
  function Rescued(w: World): World
    requires |w.core.writer.frames| <= |w.core.machine.pending|
  {
    var m := w.core.machine;
    w.(core := CoreState(m.(pending := [], ledger := Machine.ReleaseEach(m.ledger, m.pending)),
                         w.core.writer.(frames := [], used := 0), Cleared(w.core.journal),
                         Some(if w.core.poisoned.Some? then w.core.poisoned.value else Recovered), w.core.audited),
       recovered := w.recovered + Handed(m.pending, w.core.writer.frames, |m.pending|))
  }

  lemma RecoverShaped(c: CoreState, slack: Slack)
    requires Shaped(c.machine.pending, c.writer.frames, slack) && DistinctIds(c.machine.pending)
    requires c.journal == Cleared(c.journal).(armed := c.journal.armed)
    requires !Machine.ReleaseEach(c.machine.ledger, c.machine.pending).poisoned
    ensures Recover(c).0 == CoreState(c.machine.(pending := [],
        ledger := Machine.ReleaseEach(c.machine.ledger, c.machine.pending)),
                                      c.writer.(frames := [], used := 0), Cleared(c.journal),
                                      Some(if c.poisoned.Some? then c.poisoned.value else Recovered), c.audited)
    ensures Recover(c).1 == ConnectionRecovery(c.machine.epoch,
        Handed(c.machine.pending, c.writer.frames, |c.machine.pending|),
                                               [], c.journal.armed)
  {
    var m, frames := c.machine, c.writer.frames;
    MergeIdle(m.pending);
    var start := Restoring(AllDiscarded(frames) + HeldWrites(c.journal), [], m.ledger, c.journal.armed);
    assert start.writes == AllDiscarded(frames);
    RestoringShaped(start, m.pending, frames, slack, |m.pending|);
    assert m.pending[..|m.pending|] == m.pending;
    assert FramesFrom(m.pending, frames, |m.pending|) == [];
    hide Merge, RestoreAll, Handed, Machine.ReleaseEach, FramesFrom, DistinctIds, Shaped;
  }

  /** A reachable owner recovers without loss or surplus: every unfinished operation in wire order,
      each frame still owned with its own operation, nothing unmatched, and no divergence unless a
      report broke the owner. */
  lemma RecoverExactly(w: World, g: Ghosts, slack: Slack)
    requires Sound(w, g, slack)
    ensures |w.core.writer.frames| <= |w.core.machine.pending|
    ensures StepRecover(w) == Rescued(w)
    ensures Recover(w.core).1 == ConnectionRecovery(w.core.machine.epoch,
      Handed(w.core.machine.pending, w.core.writer.frames, |w.core.machine.pending|), [], w.core.journal.armed)
  {
    var m := w.core.machine;
    PendingDistinct(w, g);
    RescueAccounts(w);
    BalancedHealthy(Machine.ReleaseEach(m.ledger, m.pending), PermitClaims(w.permits));
    assert w.core.journal == Cleared(w.core.journal).(armed := w.core.journal.armed);
    assert Shaped(m.pending, w.core.writer.frames, slack);
    hide Sound, Handed, Machine.ReleaseEach, DistinctIds, Recover;
    RecoverShaped(w.core, slack);
  }

  lemma BalancedHealthy(l: LedgerState, claims: seq<Claim>)
    requires Balanced(l, claims)
    ensures !l.poisoned
  {
  }

  lemma RescueAccounts(w: World)
    requires Accounted(w)
    ensures Balanced(Machine.ReleaseEach(w.core.machine.ledger, w.core.machine.pending), PermitClaims(w.permits))
    ensures Machine.ReleaseEach(w.core.machine.ledger, w.core.machine.pending).limits == w.core.machine.ledger.limits
  {
    hide Balanced, Machine.ReleaseEach, PermitClaims, RecordClaims, RetainedSum;
    var m := w.core.machine;
    assert Claims(w.permits, m.pending) == PermitClaims(w.permits) + RecordClaims(m.pending) + [];
    EveryReleaseBalanced(m.ledger, PermitClaims(w.permits), m.pending, []);
    assert PermitClaims(w.permits) + [] == PermitClaims(w.permits);
  }

  // --------------------------------------------------------------- what recovery keeps

  lemma {:induction false} HandedBag(pending: seq<Record>, frames: seq<QueuedWrite>, n: nat)
    requires n <= |pending| && |frames| <= |pending|
    ensures RecoveredBag(Handed(pending, frames, n)) == ActiveBag(pending[..n])
  {
    if n > 0 {
      HandedBag(pending, frames, n - 1);
      assert pending[..n][..n - 1] == pending[..n - 1];
      BagConcat(Handed(pending, frames, n - 1), HandedOne(pending, frames, n - 1));
    }
  }

  lemma BagConcat(a: seq<RecoveredOperation>, b: seq<RecoveredOperation>)
    ensures RecoveredBag(a + b) == RecoveredBag(a) + RecoveredBag(b)
    ensures RecoveredBag([]) == multiset{}
    ensures |b| == 1 ==> RecoveredBag(b) == multiset{b[0].operation}
  {
    assert RecoveredIds(a + b) == RecoveredIds(a) + RecoveredIds(b);
  }

  ghost predicate Sure(o: RecoveredOperation, commits: seq<Commitment>) {
    forall c :: 0 <= c < |commits| && commits[c].id == o.operation ==> (o.delivery.PossiblySent? <==> commits[c].touched)
  }

  ghost predicate AllSure(operations: seq<RecoveredOperation>, commits: seq<Commitment>) {
    forall j :: 0 <= j < |operations| ==> Sure(operations[j], commits)
  }

  lemma HandedSure(w: World, g: Ghosts, slack: Slack, i: nat)
    requires Structured(w, g, slack) && Identified(w, g.delta) && i < |w.core.machine.pending|
    ensures AllSure(HandedOne(w.core.machine.pending, w.core.writer.frames, i), w.commits)
  {
    var pending, frames := w.core.machine.pending, w.core.writer.frames;
    var k := WrittenCount(pending, frames);
    assert Same(w.commits[g.order[i]], pending[i]);
    if k <= i {
      assert Holds(pending[k + (i - k)], frames[i - k], SlackOf(slack, i - k));
      assert w.commits[g.order[k + (i - k)]].touched <==> frames[i - k].started;
    } else {
      assert Whole(w.commits[g.order[i]]);
    }
  }

  lemma {:induction false} EveryHandedSure(w: World, g: Ghosts, slack: Slack, n: nat)
    requires Structured(w, g, slack) && Identified(w, g.delta) && n <= |w.core.machine.pending|
    ensures |w.core.writer.frames| <= |w.core.machine.pending|
    ensures AllSure(Handed(w.core.machine.pending, w.core.writer.frames, n), w.commits)
  {
    if n > 0 {
      EveryHandedSure(w, g, slack, n - 1);
      HandedSure(w, g, slack, n - 1);
      hide Structured, Identified, Sure;
    }
  }

  lemma CertainRescue(
    trace: seq<Effect>, recovered: seq<RecoveredOperation>, more: seq<RecoveredOperation>, commits: seq<Commitment>)
    requires Certain(trace, recovered, commits) && AllSure(more, commits)
    ensures Certain(trace, recovered + more, commits)
  {
    var all := recovered + more;
    forall j, c | 0 <= j < |all| && 0 <= c < |commits| && all[j].operation == commits[c].id
      ensures all[j].delivery.PossiblySent? <==> commits[c].touched
    {
      if |recovered| <= j { assert Sure(more[j - |recovered|], commits); }
    }
  }

  lemma RescueConserved(w: World)
    requires Conserved(w) && |w.core.writer.frames| <= |w.core.machine.pending|
    ensures Conserved(Rescued(w))
  {
    hide OutcomeIds, Handed, Machine.ReleaseEach, RecoveredBag;
    var pending, frames := w.core.machine.pending, w.core.writer.frames;
    HandedBag(pending, frames, |pending|);
    assert pending[..|pending|] == pending;
    BagConcat(w.recovered, Handed(pending, frames, |pending|));
    hide ActiveBag;
    NoneActive();
  }

  lemma RescueStructure(w: World, g: Ghosts, slack: Slack)
    requires Structured(w, g, slack) && |w.core.writer.frames| <= |w.core.machine.pending|
    ensures Structured(Rescued(w), g.(order := []), Loose)
  {
    hide Machine.ReleaseEach, Handed;
  }

  lemma RescueIdentities(w: World, delta: int)
    requires Identified(w, delta) && |w.core.writer.frames| <= |w.core.machine.pending|
    ensures Identified(Rescued(w), delta)
  {
    hide Machine.ReleaseEach, Handed;
  }

  lemma RescueAccounted(w: World)
    requires Accounted(w) && |w.core.writer.frames| <= |w.core.machine.pending|
    ensures Accounted(Rescued(w))
  {
    RescueAccounts(w);
    EmptyClaims(w.permits);
    hide Machine.ReleaseEach, Handed, Balanced, RetainedSum;
  }

  lemma RescueRecords(w: World, g: Ghosts, slack: Slack)
    requires Structured(w, g, slack) && Identified(w, g.delta) && Recorded(w, g)
    requires |w.core.writer.frames| <= |w.core.machine.pending|
    ensures Recorded(Rescued(w), g.(order := []))
  {
    var pending, frames := w.core.machine.pending, w.core.writer.frames;
    EveryHandedSure(w, g, slack, |pending|);
    RescueConserved(w);
    CertainRescue(w.trace, w.recovered, Handed(pending, frames, |pending|), w.commits);
    AnsweredNone(w.trace, w.commits, g.order);
    hide Structured, Identified, Conserved, Certain, Answered, Flatten, Machine.ReleaseEach, Handed;
  }

  lemma AnsweredNone(trace: seq<Effect>, commits: seq<Commitment>, order: seq<nat>)
    requires Answered(trace, commits, order)
    ensures Answered(trace, commits, [])
  {
  }

  lemma RescueKeeps(w: World, g: Ghosts, slack: Slack)
    requires Sound(w, g, slack) && |w.core.writer.frames| <= |w.core.machine.pending|
    ensures Sound(Rescued(w), g.(order := []), Loose) && Busy(Rescued(w))
  {
    hide Identified, Structured, Accounted, Recorded, Closures, Machine.ReleaseEach, Handed;
    RescueStructure(w, g, slack);
    RescueIdentities(w, g.delta);
    RescueAccounted(w);
    RescueRecords(w, g, slack);
  }

  lemma EmptyClaims(permits: seq<Permit>)
    ensures Claims(permits, []) == PermitClaims(permits)
    ensures RetainedSum([]) == 0
  {
  }

  lemma RecoverSteps(w: World, g: Ghosts)
    requires Inv(w, g)
    ensures Inv(StepRecover(w), g.(order := []))
  {
    var slack := if w.core.poisoned.Some? then Loose else Tight;
    RecoverExactly(w, g, slack);
    RescueKeeps(w, g, slack);
    hide Sound, Machine.ReleaseEach, Handed, Recover;
  }
}
