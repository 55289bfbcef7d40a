/** Reserving, dropping and committing: capacity changes hands without changing the totals. */
module Admission {
  import opened Primitives
  import opened KeySet
  import opened Ledger
  import opened Operations
  import opened Writer
  import opened Recovery
  import opened Core
  import opened World
  import opened Moves
  import opened Agreement
  import Machine

  // --------------------------------------------------------------- the order of claims

  /** Which holder comes first does not matter to the ledger. */
  lemma MoveToEnd(l: LedgerState, claims: seq<Claim>, i: nat)
    requires Balanced(l, claims) && i < |claims|
    ensures Balanced(l, RemoveAt(claims, i) + [claims[i]])
  {
    var rest := RemoveAt(claims, i);
    TotalsAt(claims, i, claims[i]);
    TotalsSnoc(rest, claims[i]);
    KeysShrink(claims, i);
    KeysExtend(rest, claims[i]);
  }

  /** A new permit's claim, inserted after the other permits. */
  lemma Inserted(l: LedgerState, before: seq<Claim>, c: Claim, after: seq<Claim>)
    requires Balanced(l, before + after + [c])
    ensures Balanced(l, before + [c] + after)
  {
    var all, moved := before + after + [c], before + [c] + after;
    TotalsAround(before, c, after);
    TotalsSnoc(before + after, c);
    assert all[|before| + |after|] == c;
    forall i, j | 0 <= i < j < |moved| ensures moved[i].reservation.key != moved[j].reservation.key {
      assert moved[i] == all[Shifted(|before|, |after|, i)] && moved[j] == all[Shifted(|before|, |after|, j)];
    }
    SameKeys(before, c, after);
  }

  function Shifted(before: nat, after: nat, i: nat): nat
    requires i < before + after + 1
  {
    if i < before then i else if i == before then before + after else i - 1
  }

  lemma SameKeys(before: seq<Claim>, c: Claim, after: seq<Claim>)
    ensures ClaimedKeys(before + [c] + after) == ClaimedKeys(before + after + [c])
  {
    var all, moved := before + after + [c], before + [c] + after;
    forall k | k in ClaimedKeys(all) ensures k in ClaimedKeys(moved) {
      var i :| 0 <= i < |all| && all[i].reservation.key == k;
      var at := if i < |before| then i else if i == |before| + |after| then |before| else i + 1;
      assert moved[at] == all[i];
    }
    forall k | k in ClaimedKeys(moved) ensures k in ClaimedKeys(all) {
      var i :| 0 <= i < |moved| && moved[i].reservation.key == k;
      assert all[Shifted(|before|, |after|, i)] == moved[i];
    }
  }

  // --------------------------------------------------------------- reserve

  function Reserved(w: World, now: Moment, options: Options): World
    requires w.core.machine.ledger.limits.Valid() && w.core.machine.ledger.limits.InSpace(w.core.machine.ledger.nextKey)
  {
    var (m, r) := Machine.Reserve(w.core.machine, now, options);
    w.(core := w.core.(machine := m), permits := if r.Success? then w.permits + [r.value] else w.permits)
  }

  /** A refused reservation changes nothing at all. */
  lemma RefusedReserve(m: Machine.MachineState, now: Moment, options: Options)
    requires m.ledger.limits.Valid() && m.ledger.limits.InSpace(m.ledger.nextKey)
    ensures Machine.Reserve(m, now, options).1.Failure? ==> Machine.Reserve(m, now, options).0 == m
  {
  }

  lemma ReserveAccounts(w: World, now: Moment, options: Options)
    requires Accounted(w)
    ensures w.core.machine.ledger.limits.Valid() && w.core.machine.ledger.limits.InSpace(w.core.machine.ledger.nextKey)
    ensures Accounted(Reserved(w, now, options))
  {
    NotPoisoned(w);
    ReservedBalanced(w, now, options);
    ReserveFrame(w.core.machine, now, options);
    hide Balanced, RetainedSum, Machine.Reserve;
  }

  lemma ReservedBalanced(w: World, now: Moment, options: Options)
    requires Balanced(w.core.machine.ledger, Claims(w.permits, w.core.machine.pending))
    ensures w.core.machine.ledger.limits.Valid() && w.core.machine.ledger.limits.InSpace(w.core.machine.ledger.nextKey)
    ensures var after := Reserved(w, now, options);
      Balanced(after.core.machine.ledger, Claims(after.permits, after.core.machine.pending))
  {
    var m := w.core.machine;
    RefusedReserve(m, now, options);
    var (m', r) := Machine.Reserve(m, now, options);
    if r.Success? {
      GrantedBalanced(w, options.retained, options.writeRetained, r.value);
      hide Balanced, ReserveIn, Claims;
    }
  }

  lemma GrantedBalanced(w: World, retained: U64, writeRetained: U64, permit: Permit)
    requires Balanced(w.core.machine.ledger, Claims(w.permits, w.core.machine.pending))
    requires ReserveIn(w.core.machine.ledger, retained, writeRetained).1 == Success(permit.reservation)
    ensures Balanced(ReserveIn(w.core.machine.ledger, retained, writeRetained).0,
        Claims(w.permits + [permit], w.core.machine.pending))
  {
    var permits, records := PermitClaims(w.permits), RecordClaims(w.core.machine.pending);
    var c := Claim(permit.reservation, true, true);
    ReserveBalanced(w.core.machine.ledger, permits + records, retained, writeRetained);
    Inserted(ReserveIn(w.core.machine.ledger, retained, writeRetained).0, permits, c, records);
    assert PermitClaims(w.permits + [permit]) == permits + [c];
  }

  lemma ReserveIdentities(w: World, g: Ghosts, now: Moment, options: Options)
    requires Identified(w, g.delta)
    requires w.core.machine.ledger.limits.Valid() && w.core.machine.ledger.limits.InSpace(w.core.machine.ledger.nextKey)
    ensures Identified(Reserved(w, now, options), g.delta)
  {
    hide Identified, Machine.Reserve;
    RefusedReserve(w.core.machine, now, options);
    ReserveFrame(w.core.machine, now, options);
    var (m, r) := Machine.Reserve(w.core.machine, now, options);
    if r.Success? {
      PermitIdentities(w.core.machine, now, options);
      OneMoreIdentity(w, Reserved(w, now, options), g.delta, r.value);
    } else {
      assert Reserved(w, now, options) == w;
    }
  }

  /** A granted permit takes the next identities, and later ones are larger. */
  ghost predicate NextIdentities(m: Machine.MachineState, after: Machine.MachineState, p: Permit) {
    && m.nextOperation == Some(p.operation) && m.nextEffect == Some(p.effect) && p.epoch == m.epoch
    && after.nextOperation == Machine.Successor(p.operation) && after.nextEffect == Machine.Successor(p.effect)
  }

  lemma PermitIdentities(m: Machine.MachineState, now: Moment, options: Options)
    requires m.ledger.limits.Valid() && m.ledger.limits.InSpace(m.ledger.nextKey)
    requires Machine.Reserve(m, now, options).1.Success?
    ensures NextIdentities(m, Machine.Reserve(m, now, options).0, Machine.Reserve(m, now, options).1.value)
  {
  }

  lemma OneMoreIdentity(w: World, after: World, delta: int, p: Permit)
    requires Identified(w, delta) && NextIdentities(w.core.machine, after.core.machine, p)
    requires after.permits == w.permits + [p] && after.commits == w.commits
    requires after.core.machine.pending == w.core.machine.pending && after.core.machine.epoch == w.core.machine.epoch
    ensures Identified(after, delta)
  {
  }

  lemma ReserveFrame(m: Machine.MachineState, now: Moment, options: Options)
    requires m.ledger.limits.Valid() && m.ledger.limits.InSpace(m.ledger.nextKey)
    ensures var after := Machine.Reserve(m, now, options).0;
      after.pending == m.pending && after.phase == m.phase && after.gate == m.gate && after.epoch == m.epoch
      && after.ledger.limits == m.ledger.limits
  {
  }

  lemma ReserveComputes(w: World, g: Ghosts, now: Moment, options: Options)
    requires Sound(w, g, Tight)
    requires w.core.machine.ledger.limits.Valid() && w.core.machine.ledger.limits.InSpace(w.core.machine.ledger.nextKey)
    ensures StepReserve(w, now, options) == Reserved(w, now, options)
  {
    AuditPasses(w, g);
    hide Sound, Machine.Reserve, Health, Violation;
  }

  lemma ReservedKeeps(w: World, g: Ghosts, now: Moment, options: Options)
    requires Inv(w, g) && w.core.poisoned.None?
    ensures w.core.machine.ledger.limits.Valid() && w.core.machine.ledger.limits.InSpace(w.core.machine.ledger.nextKey)
    ensures Inv(Reserved(w, now, options), g)
  {
    hide Identified, Accounted, Shaped, Ordered, Tracked, CutAt, Certain, Answered, OutcomeIds, ActiveBag, Closures,
      Machine.Reserve;
    ReserveAccounts(w, now, options);
    ReserveIdentities(w, g, now, options);
    ReserveFrame(w.core.machine, now, options);
  }

  lemma ReserveSteps(w: World, g: Ghosts, now: Moment, options: Options)
    requires Inv(w, g)
    ensures w.core.machine.ledger.limits.Valid() && w.core.machine.ledger.limits.InSpace(w.core.machine.ledger.nextKey)
    ensures Inv(StepReserve(w, now, options), g)
  {
    NotPoisoned(w);
    if w.core.poisoned.None? {
      hide Sound, StepReserve, Reserved;
      ReserveComputes(w, g, now, options);
      ReservedKeeps(w, g, now, options);
    }
  }

  // --------------------------------------------------------------- drop

  lemma DropAccounts(w: World, i: nat)
    requires Accounted(w) && i < |w.permits|
    ensures Accounted(DropPermit(w, i))
  {
    hide Balanced, RetainedSum, Claims, Release;
    var l, claims := w.core.machine.ledger, Claims(w.permits, w.core.machine.pending);
    RemovePermitClaims(w.permits, w.core.machine.pending, i);
    ClaimsLength(w.permits, w.core.machine.pending);
    ReleaseBalanced(l, claims, i);
    DroppedLimits(l, w.permits[i].reservation);
  }

  lemma ClaimsLength(permits: seq<Permit>, pending: seq<Record>)
    ensures |Claims(permits, pending)| == |permits| + |pending|
  {
  }

  lemma DroppedLimits(l: LedgerState, r: Reservation)
    ensures Release(l, r, true, true).limits == l.limits
  {
  }

  lemma DropIdentities(w: World, delta: int, i: nat)
    requires Identified(w, delta) && i < |w.permits|
    ensures Identified(DropPermit(w, i), delta)
  {
    hide Release;
  }

  /** Dropping a live permit, in any state of its owner, gives back exactly what it held. */
  lemma DropSteps(w: World, g: Ghosts, i: nat)
    requires Inv(w, g) && i < |w.permits|
    ensures Inv(DropPermit(w, i), g)
  {
    hide Identified, Accounted, Shaped, Ordered, Tracked, CutAt, Cut, Certain, Answered, OutcomeIds, ActiveBag, Release,
      Flatten, RemoveAt, Closures;
    DropAccounts(w, i);
    DropIdentities(w, g.delta, i);
  }

  // --------------------------------------------------------------- commit

  function Queued(p: Permit, frame: Frame): QueuedWrite {
    QueuedWrite(p.operation, p.effect, frame, |frame.bytes|, frame.retained, 0, false)
  }

  function Committed(w: World, i: nat, frame: Frame): World
    requires i < |w.permits|
  {
    var p, m := w.permits[i], w.core.machine;
    w.(core := w.core.(
         machine := m.(ledger := CommitPermit(m.ledger, p.reservation, frame.retained),
                       pending := m.pending + [Machine.Accepted(p, frame.retained)]),
         writer := w.core.writer.(frames := w.core.writer.frames + [Queued(p, frame)],
                                  used := w.core.writer.used + frame.retained)),
       permits := RemoveAt(w.permits, i),
       commits := w.commits + [Commitment(p.operation, frame, p.completion, 0, false)],
       trace := w.trace + [ScheduleDeadline(m.epoch, p.operation, p.deadline)])
  }

  function CommitGhosts(w: World, g: Ghosts): Ghosts {
    g.(order := g.order + [|w.commits|])
  }

  lemma CommitIdentities(w: World, g: Ghosts, i: nat, frame: Frame)
    requires Identified(w, g.delta) && i < |w.permits|
    ensures Identified(Committed(w, i, frame), g.delta)
  {
    hide CommitPermit;
  }

  lemma CommitShaped(pending: seq<Record>, frames: seq<QueuedWrite>, p: Permit, frame: Frame)
    requires Shaped(pending, frames, Tight)
    ensures Shaped(pending + [Machine.Accepted(p, frame.retained)], frames + [Queued(p, frame)], Tight)
  {
    var k := WrittenCount(pending, frames);
    var ps, fs := pending + [Machine.Accepted(p, frame.retained)], frames + [Queued(p, frame)];
    forall j | 0 <= j < |fs| ensures Holds(ps[k + j], fs[j], SlackOf(Tight, j)) {
      if j < |frames| { assert Holds(pending[k + j], frames[j], SlackOf(Tight, j)); }
    }
    forall x | 0 <= x < k ensures WrittenOut(ps[x]) {
      assert WrittenOut(pending[x]);
    }
  }

  lemma CommitOrdered(pending: seq<Record>, commits: seq<Commitment>, order: seq<nat>, r: Record, c: Commitment)
    requires Ordered(pending, commits, order) && Same(c, r)
    ensures Ordered(pending + [r], commits + [c], order + [|commits|])
  {
    var ps, cs, os := pending + [r], commits + [c], order + [|commits|];
    forall x | 0 <= x < |os| ensures os[x] < |cs| && Same(cs[os[x]], ps[x]) {
      if x < |order| { assert Same(commits[order[x]], pending[x]); }
    }
  }

  lemma CommitTracked(pending: seq<Record>, frames: seq<QueuedWrite>, commits: seq<Commitment>, order: seq<nat>,
                      r: Record, q: QueuedWrite, c: Commitment)
    requires |order| == |pending| && |frames| <= |pending| && Tracked.requires(pending, frames, commits, order)
    requires Tracked(pending, frames, commits, order)
    requires c.frame == q.frame && c.sent == q.written && c.touched == q.started
    ensures Tracked(pending + [r], frames + [q], commits + [c], order + [|commits|])
  {
    var k := WrittenCount(pending, frames);
    var ps, fs, cs, os := pending + [r], frames + [q], commits + [c], order + [|commits|];
    forall x | 0 <= x < k ensures Whole(cs[os[x]]) && (cs[os[x]].touched <==> ps[x].delivery.PossiblySent?) {
      assert Whole(commits[order[x]]);
    }
    forall j | 0 <= j < |fs|
      ensures cs[os[k + j]].frame == fs[j].frame && cs[os[k + j]].sent == fs[j].written
              && (cs[os[k + j]].touched <==> fs[j].started)
    {
      if j < |frames| { assert commits[order[k + j]].frame == frames[j].frame; }
    }
  }

  lemma CommitStructure(w: World, g: Ghosts, i: nat, frame: Frame)
    requires Structured(w, g, Tight) && i < |w.permits| && w.core.poisoned.None? && w.core.machine.phase.Live?
    ensures Structured(Committed(w, i, frame), CommitGhosts(w, g), Tight)
  {
    var p, pending, frames := w.permits[i], w.core.machine.pending, w.core.writer.frames;
    var r, c := Machine.Accepted(p, frame.retained), Commitment(p.operation, frame, p.completion, 0, false);
    CommitShaped(pending, frames, p, frame);
    CommitOrdered(pending, w.commits, g.order, r, c);
    CommitTracked(pending, frames, w.commits, g.order, r, Queued(p, frame), c);
    hide Shaped, Tracked, CommitPermit;
  }

  lemma CommitAccounts(w: World, i: nat, frame: Frame)
    requires Accounted(w) && i < |w.permits| && frame.retained <= w.permits[i].reservation.writeRetained
    ensures Accounted(Committed(w, i, frame))
  {
    var p, m := w.permits[i], w.core.machine;
    var claims := Claims(w.permits, m.pending);
    var r := Machine.Accepted(p, frame.retained);
    var c := Claim(r.reservation, true, false);
    RemovePermitClaims(w.permits, m.pending, i);
    ClaimsLength(w.permits, m.pending);
    ClaimsAppend(RemoveAt(w.permits, i), m.pending, r);
    RetainedSnoc(w.core.writer.frames, Queued(p, frame));
    hide Balanced, RetainedSum, Claims, CommitPermit;
    CommitBalanced(m.ledger, claims, i, frame.retained);
    CommittedLimits(m.ledger, p.reservation, frame.retained);
    MoveToEnd(CommitPermit(m.ledger, p.reservation, frame.retained), claims[i := c], i);
    assert RemoveAt(claims[i := c], i) == RemoveAt(claims, i);
  }

  lemma ClaimsAppend(permits: seq<Permit>, pending: seq<Record>, r: Record)
    ensures Claims(permits, pending + [r]) == Claims(permits, pending) + [Claim(r.reservation, r.writeHeld, false)]
  {
    assert RecordClaims(pending + [r]) == RecordClaims(pending) + [Claim(r.reservation, r.writeHeld, false)];
  }

  lemma CommittedLimits(l: LedgerState, r: Reservation, actual: nat)
    ensures CommitPermit(l, r, actual).limits == l.limits
  {
  }

  /** Only accepted operations were ever spoken about. */
  lemma OnlyAccepted(w: World, id: OperationId)
    requires Conserved(w) && forall c :: 0 <= c < |w.commits| ==> w.commits[c].id != id
    ensures forall j :: 0 <= j < |w.trace| && w.trace[j].PublishOutcome? ==> w.trace[j].operation != id
    ensures forall j :: 0 <= j < |w.recovered| ==> w.recovered[j].operation != id
  {
    assert id !in CommitIds(w.commits);
    assert id !in multiset(CommitIds(w.commits));
    forall j | 0 <= j < |w.trace| && w.trace[j].PublishOutcome? ensures w.trace[j].operation != id {
      PublishedMember(w.trace, j);
    }
    forall j | 0 <= j < |w.recovered| ensures w.recovered[j].operation != id {
      assert RecoveredIds(w.recovered)[j] in multiset(RecoveredIds(w.recovered));
    }
  }

  lemma CommitCertain(w: World, i: nat, frame: Frame)
    requires i < |w.permits| && Conserved(w) && Certain(w.trace, w.recovered, w.commits)
    requires forall c :: 0 <= c < |w.commits| ==> w.commits[c].id != w.permits[i].operation
    ensures Certain(Committed(w, i, frame).trace, w.recovered, Committed(w, i, frame).commits)
  {
    OnlyAccepted(w, w.permits[i].operation);
    hide Conserved, CommitPermit;
    var trace, commits := Committed(w, i, frame).trace, Committed(w, i, frame).commits;
    forall j, c | 0 <= j < |trace| && 0 <= c < |commits| && Decides(trace[j], commits[c].id)
      ensures OutcomeDelivery(trace[j].outcome).value.PossiblySent? <==> commits[c].touched
    {
      assert Decides(w.trace[j], w.commits[c].id);
    }
    forall j, c | 0 <= j < |w.recovered| && 0 <= c < |commits| && w.recovered[j].operation == commits[c].id
      ensures w.recovered[j].delivery.PossiblySent? <==> commits[c].touched
    {
      assert w.recovered[j].operation == w.commits[c].id;
    }
  }

  lemma CommitAnswered(w: World, g: Ghosts, i: nat, frame: Frame)
    requires i < |w.permits| && Conserved(w) && Answered(w.trace, w.commits, g.order)
    requires forall c :: 0 <= c < |w.commits| ==> w.commits[c].id != w.permits[i].operation
    ensures Answered(Committed(w, i, frame).trace, Committed(w, i, frame).commits, CommitGhosts(w, g).order)
  {
    OnlyAccepted(w, w.permits[i].operation);
    hide Conserved, CommitPermit;
    var trace, commits, order := Committed(w, i, frame).trace, Committed(w, i, frame).commits, CommitGhosts(w, g).order;
    forall j, c | 0 <= j < |trace| && 0 <= c < |commits| && Answers(trace[j], commits[c].id)
      ensures Whole(commits[c]) && commits[c].mode.ReplyExpected? && (forall x :: 0 <= x < |order| ==> c < order[x])
    {
      assert Answers(w.trace[j], w.commits[c].id);
    }
    forall j, k, c, d | 0 <= j < k < |trace| && 0 <= c < |commits| && 0 <= d < |commits|
      ensures !(d <= c && Answers(trace[j], commits[c].id) && Answers(trace[k], commits[d].id))
    {
      if Answers(trace[j], commits[c].id) && Answers(trace[k], commits[d].id) {
        assert Answers(w.trace[j], w.commits[c].id) && Answers(w.trace[k], w.commits[d].id);
      }
    }
  }

  lemma CommitConserved(w: World, i: nat, frame: Frame)
    requires i < |w.permits| && Conserved(w)
    ensures Conserved(Committed(w, i, frame))
  {
    var p, m := w.permits[i], w.core.machine;
    var r := Machine.Accepted(p, frame.retained);
    var e := ScheduleDeadline(m.epoch, p.operation, p.deadline);
    CommitIdsGrow(w.commits, Commitment(p.operation, frame, p.completion, 0, false));
    hide OutcomeIds, ActiveBag, RecoveredBag, CommitIds, CommitPermit;
    OutcomeConcat(w.trace, [e]);
    OutcomeSingle(e);
    ActiveConcat(m.pending, [r]);
    ActiveSingle(r);
  }

  lemma CommitIdsGrow(commits: seq<Commitment>, c: Commitment)
    ensures multiset(CommitIds(commits + [c])) == multiset(CommitIds(commits)) + multiset{c.id}
  {
    assert CommitIds(commits + [c]) == CommitIds(commits) + [c.id];
  }

  lemma CommitWire(w: World, i: nat, frame: Frame)
    requires i < |w.permits| && w.wire == Flatten(w.commits)
    ensures Committed(w, i, frame).wire == Flatten(Committed(w, i, frame).commits)
  {
    var c := Commitment(w.permits[i].operation, frame, w.permits[i].completion, 0, false);
    assert (w.commits + [c])[..|w.commits|] == w.commits;
    assert Contribution(c) == [];
  }

  lemma CommitPhased(w: World, i: nat, frame: Frame)
    requires i < |w.permits| && Phased(w) && w.core.machine.phase.Live?
    ensures Phased(Committed(w, i, frame))
  {
    hide Closures, CommitPermit;
    var p, m := w.permits[i], w.core.machine;
    var e := ScheduleDeadline(m.epoch, p.operation, p.deadline);
    ClosuresConcat(w.trace, [e]);
    NoClosures([e]);
  }

  lemma FreshCommit(w: World, delta: int, i: nat)
    requires Identified(w, delta) && i < |w.permits|
    ensures forall c :: 0 <= c < |w.commits| ==> w.commits[c].id != w.permits[i].operation
  {
  }

  /** Accepting a frame moves one permit's capacity, shrunk to the measured size, to the new
      record behind everything accepted before it. */
  lemma CommitKeepsAll(w: World, g: Ghosts, i: nat, frame: Frame)
    requires Sound(w, g, Tight) && i < |w.permits| && w.core.machine.phase.Live?
    requires frame.retained <= w.permits[i].reservation.writeRetained
    ensures Sound(Committed(w, i, frame), CommitGhosts(w, g), Tight)
    ensures Busy(Committed(w, i, frame))
  {
    hide Identified, Structured, Accounted, Conserved, Certain, Answered, Flatten, Phased, CommitPermit;
    FreshCommit(w, g.delta, i);
    CommitIdentities(w, g, i, frame);
    CommitStructure(w, g, i, frame);
    CommitAccounts(w, i, frame);
    CommitConserved(w, i, frame);
    CommitWire(w, i, frame);
    CommitCertain(w, i, frame);
    CommitAnswered(w, g, i, frame);
    CommitPhased(w, i, frame);
  }

  /** What one commit does to a healthy owner: refused by policy, or accepted by both levels. */
  lemma CommitComputes(w: World, g: Ghosts, i: nat, frame: Frame)
    requires Sound(w, g, Tight) && i < |w.permits|
    ensures var failure := Machine.CommitFailure(w.core.machine, w.permits[i], frame.retained);
      StepCommit(w, i, frame) == if failure.Some? then w else Committed(w, i, frame)
  {
    hide Identified, Structured, Accounted, Recorded, Phased, Violation, CommitPermit, HoldsOperation, HoldsEffect;
    AuditPasses(w, g);
    if Machine.CommitFailure(w.core.machine, w.permits[i], frame.retained).None? {
      WriterNeverRefuses(w, g, i, frame);
    }
  }

  lemma CommitSteps(w: World, g: Ghosts, i: nat, frame: Frame)
    requires Inv(w, g) && i < |w.permits|
    ensures Inv(StepCommit(w, i, frame), g) || Inv(StepCommit(w, i, frame), CommitGhosts(w, g))
  {
    if w.core.poisoned.None? {
      CommitComputes(w, g, i, frame);
      if Machine.CommitFailure(w.core.machine, w.permits[i], frame.retained).None? {
        hide Identified, Structured, Accounted, Recorded, Closures, StepCommit;
        CommitKeepsAll(w, g, i, frame);
      }
    } else {
      NotPoisoned(w);
    }
  }
}
