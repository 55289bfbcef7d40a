/** Whole runs of one owner: every sequence of reservations, permit drops, commits, inputs,
    replies, progress reports and recoveries, with the history it leaves. */
module World {
  import opened Primitives
  import opened KeySet
  import opened Ledger
  import opened Operations
  import opened Writer
  import opened Journal
  import opened Recovery
  import opened Core
  import Machine

  /** An accepted frame, with the bytes acknowledged for it so far; `touched` once any positive
      byte count was reported for it, even one the writer refused. */
  datatype Commitment = Commitment(id: OperationId, frame: Frame, mode: CompletionMode, sent: nat, touched: bool)

  datatype World = World(
    core: CoreState,
    permits: seq<Permit>,
    commits: seq<Commitment>,
    trace: seq<Effect>,
    wire: seq<Byte>,
    recovered: seq<RecoveredOperation>)

  datatype Action =
    | DoReserve(now: Moment, options: Options)
    | DoDropPermit(index: nat)
    | DoCommit(index: nat, frame: Frame)
    | DoInput(input: Input)
    | DoReply(reply: InboundReply)
    | DoAdvance(epoch: Epoch, effect: EffectId, count: nat)
    | DoRecover

  function InitialWorld(
    epoch: Epoch, limits: Limits, operationSeed: OperationId, effectSeed: EffectId, audited: bool): World {
    World(InitialCore(epoch, limits, operationSeed, effectSeed, audited), [], [], [], [], [])
  }

  /** Credits one progress report to the commitment it belongs to. */
  function Credit(commits: seq<Commitment>, id: OperationId, count: nat, touched: bool): (r: seq<Commitment>)
    ensures |r| == |commits|
    ensures forall i :: 0 <= i < |commits| ==>
      r[i] == if commits[i].id == id
              then commits[i].(sent := commits[i].sent + count, touched := commits[i].touched || touched)
              else commits[i]
  {
    seq(|commits|, i requires 0 <= i < |commits| =>
      if commits[i].id == id
      then commits[i].(sent := commits[i].sent + count, touched := commits[i].touched || touched)
      else commits[i])
  }

  /** The bytes a transport took when it reported `count` for the front frame. */
  function TakenBytes(writer: WriterState, count: nat): seq<Byte>
    requires writer.frames != []
  {
    var q := writer.frames[0];
    if q.written + count <= |q.frame.bytes| then q.frame.bytes[q.written..q.written + count] else []
  }

  /** Dropping a live permit returns everything it reserved. */
  function DropPermit(w: World, i: nat): World
    requires i < |w.permits|
  {
    var m := w.core.machine;
    w.(core := w.core.(machine := m.(ledger := Release(m.ledger, w.permits[i].reservation, true, true))),
       permits := RemoveAt(w.permits, i))
  }

  function StepReserve(w: World, now: Moment, options: Options): World
    requires w.core.machine.ledger.limits.Valid() && w.core.machine.ledger.limits.InSpace(w.core.machine.ledger.nextKey)
  {
    var (core, r) := Core.Reserve(w.core, now, options);
    w.(core := core, permits := if r.Success? then w.permits + [r.value] else w.permits)
  }

  function StepCommit(w: World, i: nat, frame: Frame): World
    requires i < |w.permits|
  {
    var p := w.permits[i];
    var (core, r) := Core.Commit(w.core, p, frame);
    if r.Failure? then w.(core := core)
    else w.(core := core, permits := RemoveAt(w.permits, i),
            commits := w.commits + [Commitment(p.operation, frame, p.completion, 0, false)],
            trace := w.trace + r.value.effects)
  }

  function Observed(w: World, core: CoreState, r: Result<Transition, CoreError>): World {
    w.(core := core, trace := if r.Success? then w.trace + r.value.effects else w.trace)
  }

  /** A report moves bytes unless it is refused; an over-report moves none but still touches. */
  function StepAdvance(w: World, epoch: Epoch, effect: EffectId, count: nat): World {
    var (core, r) := Core.AdvanceWrite(w.core, epoch, effect, count);
    var after := Observed(w, core, r);
    if w.core.writer.frames == [] then after
    else
      var front := w.core.writer.frames[0].operation;
      if r.Success? then
        after.(commits := Credit(w.commits, front, count, count > 0), wire := w.wire + TakenBytes(w.core.writer, count))
      else if r.error.Broken? then after.(commits := Credit(w.commits, front, 0, count > 0))
      else after
  }

  function StepRecover(w: World): World {
    var (core, recovery) := Core.Recover(w.core);
    w.(core := core, recovered := w.recovered + recovery.operations)
  }

  function Step(w: World, a: Action): World
    requires w.core.machine.ledger.limits.Valid() && w.core.machine.ledger.limits.InSpace(w.core.machine.ledger.nextKey)
  {
    match a
    case DoReserve(now, options) => StepReserve(w, now, options)
    case DoDropPermit(i) => if i < |w.permits| then DropPermit(w, i) else w
    case DoCommit(i, frame) => if i < |w.permits| then StepCommit(w, i, frame) else w
    case DoInput(input) => var (core, r) := Core.Apply(w.core, input); Observed(w, core, r)
    case DoReply(reply) => var (core, r) := Core.ApplyReply(w.core, reply); Observed(w, core, r)
    case DoAdvance(epoch, effect, count) => StepAdvance(w, epoch, effect, count)
    case DoRecover => StepRecover(w)
  }

  // --------------------------------------------------------------- who holds capacity

  function PermitClaims(permits: seq<Permit>): (r: seq<Claim>)
    ensures |r| == |permits|
    ensures forall i :: 0 <= i < |permits| ==> r[i] == Claim(permits[i].reservation, true, true)
  {
    seq(|permits|, i requires 0 <= i < |permits| => Claim(permits[i].reservation, true, true))
  }

  function RecordClaims(pending: seq<Record>): (r: seq<Claim>)
    ensures |r| == |pending|
    ensures forall i :: 0 <= i < |pending| ==> r[i] == Claim(pending[i].reservation, pending[i].writeHeld, false)
  {
    seq(|pending|, i requires 0 <= i < |pending| => Claim(pending[i].reservation, pending[i].writeHeld, false))
  }

  function Claims(permits: seq<Permit>, pending: seq<Record>): seq<Claim> {
    PermitClaims(permits) + RecordClaims(pending)
  }

  // --------------------------------------------------------------- identities

  /** Generated identities are fresh, and a write's identity is its operation's, shifted. */
  ghost predicate Identified(w: World, delta: int) {
    var m := w.core.machine;
    && (forall i, j :: 0 <= i < j < |w.commits| ==> w.commits[i].id != w.commits[j].id)
    && (forall i, j :: 0 <= i < j < |w.permits| ==> w.permits[i].operation != w.permits[j].operation)
    && (forall i, j :: 0 <= i < |w.permits| && 0 <= j < |w.commits| ==> w.permits[i].operation != w.commits[j].id)
    && (forall i :: 0 <= i < |w.permits| ==>
          w.permits[i].epoch == m.epoch && w.permits[i].effect - w.permits[i].operation == delta)
    && (forall i :: 0 <= i < |m.pending| ==> m.pending[i].effect - m.pending[i].id == delta)
    && (m.nextOperation.Some? ==>
          && (forall i :: 0 <= i < |w.permits| ==> w.permits[i].operation < m.nextOperation.value)
          && (forall i :: 0 <= i < |w.commits| ==> w.commits[i].id < m.nextOperation.value)
          && (m.nextEffect.Some? ==> m.nextEffect.value - m.nextOperation.value == delta))
  }

  predicate Same(c: Commitment, r: Record) {
    c.id == r.id && c.mode == r.completion
  }

  /** `order[i]` is the commit position of the i-th pending record. */
  ghost predicate Ordered(pending: seq<Record>, commits: seq<Commitment>, order: seq<nat>) {
    && |order| == |pending|
    && (forall i :: 0 <= i < |order| ==> order[i] < |commits| && Same(commits[order[i]], pending[i]))
    && (forall i, j :: 0 <= i < j < |order| ==> order[i] < order[j])
  }

  // --------------------------------------------------------------- shape of a healthy owner

  /** A record whose frame was completely written. */
  predicate WrittenOut(r: Record) {
    !r.writeHeld && r.completion.ReplyExpected?
    && (r.phase.AwaitingReply? || r.phase.Terminal?)
    && (r.phase.Terminal? ==> r.delivery.PossiblySent?)
  }

  /** How far writer and policy may differ about the front frame: not at all between calls on a
      healthy owner; `Full` inside a report that wrote it out; `Loose` after an over-report, when
      the writer alone knows that bytes moved. */
  datatype Slack = Tight | Full | Loose

  /** A record and the frame it holds in the writer. */
  predicate Holds(r: Record, q: QueuedWrite, slack: Slack) {
    && r.writeHeld && q.operation == r.id && q.effect == r.effect
    && q.wire == |q.frame.bytes| && q.retained == q.frame.retained == r.reservation.writeRetained
    && q.written <= q.wire && (0 < q.written ==> q.started)
    && (slack.Tight? ==> q.written < q.wire || q.wire == 0)
    && (slack.Full? ==> q.written == q.wire)
    && (r.delivery.PossiblySent? ==> q.started)
    && (q.started && !slack.Loose? ==> r.delivery.PossiblySent? && 0 < q.written)
    && (r.delivery.NotSent? <==> r.phase.Queued?)
    && !r.phase.AwaitingReply?
  }

  function SlackOf(slack: Slack, j: nat): Slack {
    if j == 0 then slack else Tight
  }

  function WrittenCount(pending: seq<Record>, frames: seq<QueuedWrite>): int {
    |pending| - |frames|
  }

  /** A written prefix, then the held suffix, which is the frame queue in order; only the front
      frame has started. */
  ghost predicate Shaped(pending: seq<Record>, frames: seq<QueuedWrite>, slack: Slack) {
    var k := WrittenCount(pending, frames);
    && 0 <= k
    && (forall i :: 0 <= i < k ==> WrittenOut(pending[i]))
    && (forall j :: 0 <= j < |frames| ==> Holds(pending[k + j], frames[j], SlackOf(slack, j)))
    && (forall j :: 1 <= j < |frames| ==> !frames[j].started)
  }

  // --------------------------------------------------------------- history

  function Contribution(c: Commitment): seq<Byte> {
    if c.sent <= |c.frame.bytes| then c.frame.bytes[..c.sent] else []
  }

  function Flatten(commits: seq<Commitment>): seq<Byte> {
    if commits == [] then []
    else Flatten(commits[..|commits| - 1]) + Contribution(commits[|commits| - 1])
  }

  predicate Whole(c: Commitment) {
    c.sent == |c.frame.bytes|
  }

  /** Progress recorded for each commitment agrees with the record that still owns it. */
  ghost predicate Tracked(pending: seq<Record>, frames: seq<QueuedWrite>, commits: seq<Commitment>, order: seq<nat>)
    requires |order| == |pending| && |frames| <= |pending|
    requires forall i :: 0 <= i < |order| ==> order[i] < |commits|
  {
    var k := WrittenCount(pending, frames);
    && (forall i :: 0 <= i < k ==>
          Whole(commits[order[i]]) && (commits[order[i]].touched <==> pending[i].delivery.PossiblySent?))
    && (forall j :: 0 <= j < |frames| ==>
          && commits[order[k + j]].frame == frames[j].frame
          && commits[order[k + j]].sent == frames[j].written
          && (commits[order[k + j]].touched <==> frames[j].started))
  }

  /** Up to the cut every frame was sent whole or not at all; past it nothing was sent. */
  ghost predicate CutAt(commits: seq<Commitment>, cut: nat) {
    && (forall i :: 0 <= i < |commits| && i < cut ==> Whole(commits[i]) || commits[i].sent == 0)
    && (forall i :: 0 <= i < |commits| && cut < i ==> commits[i].sent == 0)
    && (forall i :: 0 <= i < |commits| ==>
          commits[i].sent <= |commits[i].frame.bytes| && (0 < commits[i].sent ==> commits[i].touched))
  }

  /** Where the wire is: at the front frame, or past every commitment. */
  function Cut(pending: seq<Record>, frames: seq<QueuedWrite>, commits: seq<Commitment>, order: seq<nat>): nat
    requires |order| == |pending| && |frames| <= |pending|
  {
    if frames == [] then |commits| else order[WrittenCount(pending, frames)]
  }

  // --------------------------------------------------------------- outcomes

  function OutcomeIds(trace: seq<Effect>): multiset<OperationId> {
    if trace == [] then multiset{}
    else OutcomeIds(trace[..|trace| - 1])
         + (if trace[|trace| - 1].PublishOutcome? then multiset{trace[|trace| - 1].operation} else multiset{})
  }

  function ActiveBag(pending: seq<Record>): multiset<OperationId> {
    if pending == [] then multiset{}
    else ActiveBag(pending[..|pending| - 1])
         + (if pending[|pending| - 1].phase.Terminal? then multiset{} else multiset{pending[|pending| - 1].id})
  }

  function RecoveredBag(operations: seq<RecoveredOperation>): multiset<OperationId> {
    multiset(RecoveredIds(operations))
  }

  function CommitIds(commits: seq<Commitment>): (r: seq<OperationId>)
    ensures |r| == |commits|
    ensures forall i :: 0 <= i < |commits| ==> r[i] == commits[i].id
  {
    seq(|commits|, i requires 0 <= i < |commits| => commits[i].id)
  }

  /** Every accepted operation has exactly one of: a published outcome, a nonterminal pending
      record, a recovered entry. */
  ghost predicate Conserved(w: World) {
    OutcomeIds(w.trace) + ActiveBag(w.core.machine.pending) + RecoveredBag(w.recovered)
      == multiset(CommitIds(w.commits))
  }

  function OutcomeDelivery(o: OperationOutcome): Option<Delivery> {
    match o
    case Reply(_) => None
    case WriteDone(d) => Some(d)
    case Failed(_, d) => Some(d)
    case Cancelled(d) => Some(d)
  }

  /** Delivery certainty is exact: possibly sent if and only if bytes were reported. */
  ghost predicate Certain(trace: seq<Effect>, recovered: seq<RecoveredOperation>, commits: seq<Commitment>) {
    && (forall j, c :: 0 <= j < |trace| && 0 <= c < |commits| && Decides(trace[j], commits[c].id) ==>
          (OutcomeDelivery(trace[j].outcome).value.PossiblySent? <==> commits[c].touched))
    && (forall j, c :: 0 <= j < |recovered| && 0 <= c < |commits| && recovered[j].operation == commits[c].id ==>
          (recovered[j].delivery.PossiblySent? <==> commits[c].touched))
  }

  predicate Decides(e: Effect, id: OperationId) {
    e.PublishOutcome? && e.operation == id && !e.outcome.Reply?
  }

  predicate Answers(e: Effect, id: OperationId) {
    e.PublishOutcome? && e.operation == id && e.outcome.Reply?
  }

  /** Replies went to whole frames, in commit order, each before every operation still pending. */
  ghost predicate Answered(trace: seq<Effect>, commits: seq<Commitment>, order: seq<nat>) {
    && (forall j, c :: 0 <= j < |trace| && 0 <= c < |commits| && Answers(trace[j], commits[c].id) ==>
          Whole(commits[c]) && commits[c].mode.ReplyExpected?
          && (forall i :: 0 <= i < |order| ==> c < order[i]))
    && (forall j, k, c, d :: 0 <= j < k < |trace| && 0 <= c < |commits| && 0 <= d < |commits| ==>
          !(d <= c && Answers(trace[j], commits[c].id) && Answers(trace[k], commits[d].id)))
  }

  function Closures(trace: seq<Effect>): nat {
    if trace == [] then 0
    else Closures(trace[..|trace| - 1]) + (if trace[|trace| - 1].CloseEpoch? then 1 else 0)
  }

  /** Phase and gate agree, and one closure was announced per closed epoch. */
  ghost predicate Phased(w: World) {
    var m := w.core.machine;
    && (m.phase.Live? <==> !m.gate.GateClosed?)
    && (!m.phase.Live? ==> m.pending == [])
    && Closures(w.trace) == (if m.phase.Live? then 0 else 1)
  }

  /** A live drain still has work. */
  ghost predicate Busy(w: World) {
    var m := w.core.machine;
    w.core.poisoned.None? && m.phase.Live? && m.gate.Draining? ==> m.pending != []
  }

  // --------------------------------------------------------------- the invariant

  /** Ledger, writer budget and journal agree with what is held. */
  ghost predicate Accounted(w: World) {
    var c := w.core;
    && Balanced(c.machine.ledger, Claims(w.permits, c.machine.pending))
    && c.writer.epoch == c.machine.epoch
    && c.writer.maxFrames == c.machine.ledger.limits.maxFrames
    && c.writer.maxRetained == c.machine.ledger.limits.maxWriteRetained
    && c.writer.used == RetainedSum(c.writer.frames)
    && c.journal.maxOperations == c.machine.ledger.limits.maxOperations
    && c.journal.maxWrites == c.machine.ledger.limits.maxFrames
    && c.journal == Cleared(c.journal).(armed := c.journal.armed)
    && (c.poisoned.None? ==> !c.journal.armed)
  }

  /** What the run's history proves about the present; `order` and `cut` locate it in commit order. */
  datatype Ghosts = Ghosts(order: seq<nat>, delta: int, cut: nat)

  ghost predicate Structured(w: World, g: Ghosts, slack: Slack) {
    var pending, frames := w.core.machine.pending, w.core.writer.frames;
    && Ordered(pending, w.commits, g.order)
    && Shaped(pending, frames, slack)
    && Tracked(pending, frames, w.commits, g.order)
    && CutAt(w.commits, g.cut)
    && (frames != [] || (w.core.poisoned.None? && w.core.machine.phase.Live?)
        ==> g.cut == Cut(pending, frames, w.commits, g.order))
  }

  ghost predicate Recorded(w: World, g: Ghosts) {
    && w.wire == Flatten(w.commits)
    && Conserved(w)
    && Certain(w.trace, w.recovered, w.commits)
    && Answered(w.trace, w.commits, g.order)
  }

  /** Everything but `Busy` also holds inside a step, between its moves. */
  ghost predicate Sound(w: World, g: Ghosts, slack: Slack) {
    && Identified(w, g.delta)
    && Structured(w, g, slack)
    && Accounted(w)
    && Recorded(w, g)
    && Phased(w)
    && (slack.Loose? <==> w.core.poisoned.Some?)
  }

  ghost predicate Inv(w: World, g: Ghosts) {
    && Sound(w, g, if w.core.poisoned.Some? then Loose else Tight)
    && Busy(w)
  }
}
