/** What one production slot keeps beside its core: a deadline index over a timer queue, a batch of
    outcomes, a lifecycle stream and the directive that closes its transport. */
module SlotState {
  import opened Primitives
  import opened KeySet
  import opened Ledger
  import opened Operations
  import opened Core
  import opened World
  import opened Moves
  import opened Bounded
  import opened SlotEffects

  datatype TransportState = Connecting | Open | Closing | Closed

  datatype IoPreference = PreferTransport | PreferDecode | PreferRead | PreferWrite
  {
    function Next(): IoPreference {
      match this
      case PreferTransport => PreferDecode
      case PreferDecode => PreferRead
      case PreferRead => PreferWrite
      case PreferWrite => PreferTransport
    }
  }

  datatype ShutdownState = Immediate | Pending(deadline: Moment) | Started(deadline: Moment) | Complete

  datatype CloseDirective = CoreClose(reason: CloseReason, shutdown: ShutdownState) | Abort
  {
    predicate SettlementReady() {
      Abort? || shutdown.Immediate? || shutdown.Complete?
    }

    function ShutdownDeadline(): Option<Moment> {
      if CoreClose? && (shutdown.Pending? || shutdown.Started?) then Some(shutdown.deadline) else None
    }
  }

  datatype EngineInvariant =
    | OutcomePublication | RecoveryOutcomePublication | DeadlineIndexCapacity | DeadlineSchedule
    | UnexpectedDiscardEffect | UnexpectedUnitReply | MissingShutdownDeadline
    | RecoveryLifecyclePublication | EventSequenceExhausted
    | LifecyclePublication
    | TransportOpenedBeforeEstablishment | TransportProgressContract | TransportNoProgress
    | TransportReadContract | TransportLimitContract | TransportRetainedCapacity
  {
    /** Faults of the slot itself, as opposed to those of its transport or of a caller that never
        drains the lifecycle stream. */
    predicate Internal() {
      || OutcomePublication? || RecoveryOutcomePublication? || DeadlineIndexCapacity? || DeadlineSchedule?
      || UnexpectedDiscardEffect? || UnexpectedUnitReply? || RecoveryLifecyclePublication? || EventSequenceExhausted?
    }
  }

  datatype EngineError = CoreFailed(error: CoreError) | Invariant(source: EngineInvariant) | OwnerFailed
  {
    /** The slot failed for a reason of its own. */
    predicate Unexplained() {
      (CoreFailed? && !(error.Broken? && error.source.WriteProgressContract?)) || (Invariant? && source.Internal())
    }

    /** Neither the slot's own doing nor a shutdown without a deadline. */
    predicate Explained() {
      !Unexplained() && this != Invariant(MissingShutdownDeadline)
    }
  }

  datatype EngineOutcome = EngineOutcome(epoch: Epoch, operation: OperationId, outcome: OperationOutcome)
  {
    function Retained(): nat {
      if outcome.Reply? then outcome.payload.retained else 0
    }
  }

  datatype ConnectionEvent =
    | TransportOpened(sequence: nat)
    | AdmissionOpened(sequence: nat)
    | ClosingEvent(sequence: nat, reason: CloseReason)
    | ClosedEvent(sequence: nat, reason: CloseReason)
  {
    function Rank(): nat {
      match this case TransportOpened(_) => 0 case AdmissionOpened(_) => 1 case ClosingEvent(_,
        _) => 2 case ClosedEvent(_, _) => 3
    }
  }

  datatype DeadlineEntry = DeadlineEntry(operation: OperationId, token: Token)

  datatype LimitsFault = OutcomeRetainedOverflow

  datatype SlotLimits = SlotLimits(
    connection: Limits, decoderBytes: U64, replyBytes: U64, transportBytes: U64, ioOperations: nat,
      chunkBytes: nat, lifecycleEvents: nat)
  {
    /** The aggregate outcome bound fits the accounting domain. */
    predicate Valid() {
      connection.Valid() && 0 < ioOperations && 0 < chunkBytes && 0 < lifecycleEvents
      && replyBytes * connection.maxOperations <= U64_MAX
    }

    function Capacity(): nat {
      connection.maxOperations
    }

    function OutcomeBytes(): nat {
      replyBytes * connection.maxOperations
    }

    /** Every edge of one epoch fits the recovery stream. */
    function RecoveryEvents(): nat {
      if lifecycleEvents < 4 then 4 else lifecycleEvents
    }
  }

  /** Coherent limits exist exactly when one maximum reply per operation fits fixed-width bytes. */
  function NewSlotLimits(
    connection: Limits, decoderBytes: U64, replyBytes: U64, transportBytes: U64, ioOperations: nat,
      chunkBytes: nat, lifecycleEvents: nat)
    : (r: Result<SlotLimits, LimitsFault>)
    requires connection.Valid() && 0 < ioOperations && 0 < chunkBytes && 0 < lifecycleEvents
    ensures r.Success? <==> replyBytes * connection.maxOperations <= U64_MAX
    ensures r.Success? ==> r.value.Valid()
  {
    if replyBytes * connection.maxOperations > U64_MAX then Failure(OutcomeRetainedOverflow)
    else Success(SlotLimits(connection, decoderBytes, replyBytes, transportBytes, ioOperations, chunkBytes, lifecycleEvents))
  }

  // --------------------------------------------------------------- the deadline index

  /** Each index entry has exactly one timer, armed at the indexed deadline. */
  ghost predicate Timed(timers: TimerQueue, deadlines: seq<DeadlineEntry>, index: DeadlineIndex, epoch: Epoch) {
    && timers.Valid()
    && |deadlines| == |timers.entries| == |index|
    && EntriesTimed(timers, deadlines, index, epoch)
    && EntriesApart(deadlines)
    && IndexEntered(deadlines, index)
    && TokensEntered(deadlines, timers)
  }

  ghost predicate EntriesTimed(timers: TimerQueue, deadlines: seq<DeadlineEntry>, index: DeadlineIndex, epoch: Epoch) {
    forall j :: 0 <= j < |deadlines| ==> EntryTimed(timers, deadlines[j], index, epoch)
  }

  ghost predicate EntriesApart(deadlines: seq<DeadlineEntry>) {
    forall i, j :: 0 <= i < j < |deadlines| ==>
      deadlines[i].operation != deadlines[j].operation && deadlines[i].token != deadlines[j].token
  }

  ghost predicate IndexEntered(deadlines: seq<DeadlineEntry>, index: DeadlineIndex) {
    forall id :: id in index ==> HasEntry(deadlines, id)
  }

  ghost predicate TokensEntered(deadlines: seq<DeadlineEntry>, timers: TimerQueue) {
    forall t :: t in timers.entries ==> HasToken(deadlines, t)
  }

  ghost predicate EntryTimed(timers: TimerQueue, e: DeadlineEntry, index: DeadlineIndex, epoch: Epoch) {
    && e.operation in index && e.token in timers.entries
    && timers.entries[e.token] == Timer(index[e.operation], epoch, e.operation)
  }

  ghost predicate HasEntry(deadlines: seq<DeadlineEntry>, id: OperationId) {
    exists j :: 0 <= j < |deadlines| && deadlines[j].operation == id
  }

  ghost predicate HasToken(deadlines: seq<DeadlineEntry>, t: Token) {
    exists j :: 0 <= j < |deadlines| && deadlines[j].token == t
  }

  /** The vector without entry `j`, whose place the last entry takes. */
  function SwapRemove(deadlines: seq<DeadlineEntry>, j: nat): (r: seq<DeadlineEntry>)
    requires j < |deadlines|
    ensures |r| == |deadlines| - 1
  {
    var last := |deadlines| - 1;
    if j == last then deadlines[..last] else deadlines[..last][j := deadlines[last]]
  }

  /** Where the entry at `i` of the shorter vector came from. */
  function Source(j: nat, i: nat, last: nat): nat {
    if i == j then last else i
  }

  lemma SwapRemoveAt(deadlines: seq<DeadlineEntry>, j: nat, i: nat)
    requires j < |deadlines| && i < |deadlines| - 1
    ensures SwapRemove(deadlines, j)[i] == deadlines[Source(j, i, |deadlines| - 1)]
    ensures Source(j, i, |deadlines| - 1) != j
  {
  }

  lemma SwapRemoveHas(deadlines: seq<DeadlineEntry>, j: nat, i: nat)
    requires j < |deadlines| && i < |deadlines| && i != j
    ensures exists k :: 0 <= k < |deadlines| - 1 && SwapRemove(deadlines, j)[k] == deadlines[i]
  {
    assert SwapRemove(deadlines, j)[if i == |deadlines| - 1 then j else i] == deadlines[i];
  }

  lemma RemoveSizes(timers: TimerQueue, index: DeadlineIndex, token: Token, id: OperationId)
    requires token in timers.entries && id in index
    ensures |timers.Cancel(token).entries| == |timers.entries| - 1 && |index - {id}| == |index| - 1
  {
    assert (index - {id}).Keys == index.Keys - {id};
    assert timers.Cancel(token).entries.Keys == timers.entries.Keys - {token};
  }

  lemma RemoveEntries(timers: TimerQueue, deadlines: seq<DeadlineEntry>, index: DeadlineIndex, epoch: Epoch, j: nat)
    requires EntriesTimed(timers, deadlines, index, epoch) && EntriesApart(deadlines) && j < |deadlines|
    ensures EntriesTimed(timers.Cancel(deadlines[j].token), SwapRemove(deadlines, j), index - {deadlines[j].operation}, epoch)
    ensures EntriesApart(SwapRemove(deadlines, j))
  {
    var e, d := deadlines[j], SwapRemove(deadlines, j);
    forall i | 0 <= i < |d| ensures EntryTimed(timers.Cancel(e.token), d[i], index - {e.operation}, epoch) {
      SwapRemoveAt(deadlines, j, i);
      var k := Source(j, i, |deadlines| - 1);
      assert EntryTimed(timers, deadlines[k], index, epoch);
      Apart(deadlines, j, k);
    }
    forall a, b | 0 <= a < b < |d| ensures d[a].operation != d[b].operation && d[a].token != d[b].token {
      SwapRemoveAt(deadlines, j, a);
      SwapRemoveAt(deadlines, j, b);
      Apart(deadlines, Source(j, a, |deadlines| - 1), Source(j, b, |deadlines| - 1));
    }
  }

  lemma RemoveEntered(timers: TimerQueue, deadlines: seq<DeadlineEntry>, index: DeadlineIndex, j: nat)
    requires j < |deadlines| && IndexEntered(deadlines, index) && TokensEntered(deadlines, timers)
    ensures IndexEntered(SwapRemove(deadlines, j), index - {deadlines[j].operation})
    ensures TokensEntered(SwapRemove(deadlines, j), timers.Cancel(deadlines[j].token))
  {
    var d, x, t := SwapRemove(deadlines, j), index - {deadlines[j].operation}, timers.Cancel(deadlines[j].token);
    forall id | id in x ensures HasEntry(d, id) {
      assert HasEntry(deadlines, id);
      var i :| 0 <= i < |deadlines| && deadlines[i].operation == id;
      SwapRemoveHas(deadlines, j, i);
    }
    forall u | u in t.entries ensures HasToken(d, u) {
      assert HasToken(deadlines, u);
      var i :| 0 <= i < |deadlines| && deadlines[i].token == u;
      SwapRemoveHas(deadlines, j, i);
    }
  }

  /** Dropping one entry with its timer and its index key. */
  lemma TimedRemove(timers: TimerQueue, deadlines: seq<DeadlineEntry>, index: DeadlineIndex, epoch: Epoch, j: nat)
    requires Timed(timers, deadlines, index, epoch) && j < |deadlines|
    ensures Timed(timers.Cancel(deadlines[j].token), SwapRemove(deadlines, j), index - {deadlines[j].operation}, epoch)
  {
    assert EntryTimed(timers, deadlines[j], index, epoch);
    hide EntriesTimed, EntriesApart, IndexEntered, TokensEntered, SwapRemove;
    RemoveSizes(timers, index, deadlines[j].token, deadlines[j].operation);
    RemoveEntries(timers, deadlines, index, epoch, j);
    RemoveEntered(timers, deadlines, index, j);
  }

  lemma Apart(deadlines: seq<DeadlineEntry>, a: nat, b: nat)
    requires a < |deadlines| && b < |deadlines| && a != b && EntriesApart(deadlines)
    ensures deadlines[a].operation != deadlines[b].operation && deadlines[a].token != deadlines[b].token
  {
    if a > b {
      assert deadlines[b].operation != deadlines[a].operation;
    }
  }

  lemma TimedUnknown(
    timers: TimerQueue, deadlines: seq<DeadlineEntry>, index: DeadlineIndex, epoch: Epoch, id: OperationId)
    requires Timed(timers, deadlines, index, epoch)
    requires forall j :: 0 <= j < |deadlines| ==> deadlines[j].operation != id
    ensures index - {id} == index && id !in index
  {
    assert id !in index by { assert !HasEntry(deadlines, id); }
  }

  lemma AddSizes(timers: TimerQueue, index: DeadlineIndex, timer: Timer, id: OperationId)
    requires timers.Valid() && id !in index && |timers.entries| < timers.capacity
    ensures var t := timers.Schedule(timer).value;
      t.Valid() && |t.entries| == |timers.entries| + 1 && |index[id := timer.deadline]| == |index| + 1
  {
    MapGrows(index, id, timer.deadline);
    MapGrows(timers.entries, timers.next, timer);
  }

  lemma MapGrows<V>(m: map<nat, V>, k: nat, v: V)
    requires k !in m
    ensures |m[k := v]| == |m| + 1
  {
    assert m[k := v].Keys == m.Keys + {k};
  }

  lemma AddEntries(timers: TimerQueue, deadlines: seq<DeadlineEntry>, index: DeadlineIndex, epoch: Epoch,
      id: OperationId, deadline: Moment)
    requires timers.Valid() && id !in index && |timers.entries| < timers.capacity
    requires EntriesTimed(timers, deadlines, index, epoch) && EntriesApart(deadlines)
    ensures EntriesTimed(timers.Schedule(Timer(deadline, epoch, id)).value,
        deadlines + [DeadlineEntry(id, timers.next)], index[id := deadline], epoch)
    ensures EntriesApart(deadlines + [DeadlineEntry(id, timers.next)])
  {
    var t, d := timers.Schedule(Timer(deadline, epoch, id)).value, deadlines + [DeadlineEntry(id, timers.next)];
    forall i | 0 <= i < |d| ensures EntryTimed(t, d[i], index[id := deadline], epoch) {
      if i < |deadlines| { assert EntryTimed(timers, deadlines[i], index, epoch); }
    }
    forall a, b | 0 <= a < b < |d| ensures d[a].operation != d[b].operation && d[a].token != d[b].token {
      assert EntryTimed(timers, deadlines[a], index, epoch);
    }
  }

  lemma AddEntered(
    timers: TimerQueue, deadlines: seq<DeadlineEntry>, index: DeadlineIndex, timer: Timer, id: OperationId)
    requires |timers.entries| < timers.capacity
    requires IndexEntered(deadlines, index) && TokensEntered(deadlines, timers)
    ensures IndexEntered(deadlines + [DeadlineEntry(id, timers.next)], index[id := timer.deadline])
    ensures TokensEntered(deadlines + [DeadlineEntry(id, timers.next)], timers.Schedule(timer).value)
  {
    var d, x, t := deadlines + [DeadlineEntry(id, timers.next)], index[id := timer.deadline], timers.Schedule(timer).value;
    assert d[|deadlines|] == DeadlineEntry(id, timers.next);
    forall i | i in x ensures HasEntry(d, i) {
      if i != id {
        assert HasEntry(deadlines, i);
        var j :| 0 <= j < |deadlines| && deadlines[j].operation == i;
        assert d[j].operation == i;
      }
    }
    forall u | u in t.entries ensures HasToken(d, u) {
      if u != timers.next {
        assert HasToken(deadlines, u);
        var j :| 0 <= j < |deadlines| && deadlines[j].token == u;
        assert d[j].token == u;
      }
    }
  }

  /** Arming one more operation with a fresh timer. */
  lemma TimedAdd(timers: TimerQueue, deadlines: seq<DeadlineEntry>, index: DeadlineIndex, epoch: Epoch,
      id: OperationId, deadline: Moment)
    requires Timed(timers, deadlines, index, epoch) && id !in index && |timers.entries| < timers.capacity
    ensures Timed(timers.Schedule(Timer(deadline, epoch, id)).value, deadlines + [DeadlineEntry(id, timers.next)],
                  index[id := deadline], epoch)
  {
    hide EntriesTimed, EntriesApart, IndexEntered, TokensEntered;
    AddSizes(timers, index, Timer(deadline, epoch, id), id);
    AddEntries(timers, deadlines, index, epoch, id, deadline);
    AddEntered(timers, deadlines, index, Timer(deadline, epoch, id), id);
  }

  lemma TimedToken(timers: TimerQueue, deadlines: seq<DeadlineEntry>, index: DeadlineIndex, epoch: Epoch, token: Token)
    returns (j: nat)
    requires Timed(timers, deadlines, index, epoch) && token in timers.entries
    ensures j < |deadlines| && deadlines[j].token == token
    ensures timers.entries[token] == Timer(index[deadlines[j].operation], epoch, deadlines[j].operation)
    ensures deadlines[j].operation in index
    ensures forall i :: 0 <= i < |deadlines| && deadlines[i].token == token ==> i == j
  {
    assert HasToken(deadlines, token);
    j :| 0 <= j < |deadlines| && deadlines[j].token == token;
    assert EntryTimed(timers, deadlines[j], index, epoch);
  }

  function IdsOf(pending: seq<Record>): set<OperationId> {
    set i | 0 <= i < |pending| :: pending[i].id
  }

  lemma IdsLast(front: seq<Record>, last: Record)
    ensures IdsOf(front + [last]) == IdsOf(front) + {last.id}
  {
    var pending := front + [last];
    forall id | id in IdsOf(front) + {last.id} ensures id in IdsOf(pending) {
      if id in IdsOf(front) {
        var i :| 0 <= i < |front| && front[i].id == id;
        assert pending[i].id == id;
      } else {
        assert pending[|front|].id == id;
      }
    }
  }

  lemma {:induction false} IdsBound(pending: seq<Record>)
    ensures |IdsOf(pending)| <= |pending|
  {
    if pending != [] {
      var front, last := pending[..|pending| - 1], pending[|pending| - 1];
      assert pending == front + [last];
      hide IdsOf;
      IdsBound(front);
      IdsLast(front, last);
    } else {
      assert IdsOf(pending) == {};
    }
  }

  /** The index of pending records is no larger than their number. */
  lemma IndexSize(index: DeadlineIndex, pending: seq<Record>)
    requires forall id :: id in index ==> exists i :: 0 <= i < |pending| && pending[i].id == id
    ensures |index| <= |pending|
  {
    IdsBound(pending);
    assert index.Keys <= IdsOf(pending);
    SubsetSize(index.Keys, IdsOf(pending));
  }

  lemma IdsFresh(front: seq<Record>, last: Record)
    requires DistinctIds(front + [last])
    ensures DistinctIds(front) && last.id !in IdsOf(front)
  {
    var pending := front + [last];
    forall i, j | 0 <= i < j < |front| ensures front[i].id != front[j].id {
      assert pending[i].id != pending[j].id;
    }
    forall id | id in IdsOf(front) ensures id != last.id {
      var i :| 0 <= i < |front| && front[i].id == id;
      assert pending[i].id != pending[|front|].id;
    }
  }

  lemma {:induction false} IdsExact(pending: seq<Record>)
    requires DistinctIds(pending)
    ensures |IdsOf(pending)| == |pending|
  {
    if pending != [] {
      var front, last := pending[..|pending| - 1], pending[|pending| - 1];
      assert pending == front + [last];
      hide IdsOf, DistinctIds;
      IdsFresh(front, last);
      IdsExact(front);
      IdsLast(front, last);
    }
  }

  /** One timer for each pending record, at its original absolute deadline, and no other timer. */
  ghost predicate Mirrors(timers: TimerQueue, pending: seq<Record>, epoch: Epoch) {
    && |timers.entries| == |pending|
    && (forall i :: 0 <= i < |pending| ==> HasTimer(timers, Timer(pending[i].deadline, epoch, pending[i].id)))
    && (forall t :: t in timers.entries ==> HasRecord(pending, timers.entries[t]))
  }

  ghost predicate HasTimer(timers: TimerQueue, timer: Timer) {
    exists t :: t in timers.entries && timers.entries[t] == timer
  }

  ghost predicate HasRecord(pending: seq<Record>, timer: Timer) {
    exists i :: 0 <= i < |pending| && pending[i].id == timer.operation && pending[i].deadline == timer.deadline
  }

  /** The timer queue and the pending records are in bijection. */
  lemma TimersMirror(
    timers: TimerQueue, deadlines: seq<DeadlineEntry>, index: DeadlineIndex, epoch: Epoch, pending: seq<Record>)
    requires Timed(timers, deadlines, index, epoch) && Armed(index, pending) && DistinctIds(pending)
    ensures Mirrors(timers, pending, epoch)
  {
    IndexSize(index, pending);
    IdsExact(pending);
    assert IdsOf(pending) <= index.Keys;
    SubsetSize(IdsOf(pending), index.Keys);
    forall i | 0 <= i < |pending| ensures HasTimer(timers, Timer(pending[i].deadline, epoch, pending[i].id)) {
      assert HasEntry(deadlines, pending[i].id);
      var j :| 0 <= j < |deadlines| && deadlines[j].operation == pending[i].id;
      assert EntryTimed(timers, deadlines[j], index, epoch);
    }
    forall t | t in timers.entries ensures HasRecord(pending, timers.entries[t]) {
      var j := TimedToken(timers, deadlines, index, epoch, t);
      var i :| 0 <= i < |pending| && pending[i].id == deadlines[j].operation;
    }
  }

  lemma SubsetSize(a: set<OperationId>, b: set<OperationId>)
    requires a <= b
    ensures |a| <= |b|
  {
    assert b == a + (b - a);
  }

  // --------------------------------------------------------------- outcomes

  function Publications(trace: seq<Effect>): seq<EngineOutcome> {
    if trace == [] then []
    else
      var e := trace[|trace| - 1];
      Publications(trace[..|trace| - 1])
      + (if e.PublishOutcome? then [EngineOutcome(e.epoch, e.operation, e.outcome)] else [])
  }

  lemma {:induction false} PublicationsConcat(a: seq<Effect>, b: seq<Effect>)
    ensures Publications(a + b) == Publications(a) + Publications(b)
  {
    if b == [] {
      assert a + b == a;
    } else {
      PublicationsConcat(a, b[..|b| - 1]);
      assert (a + b)[..|a + b| - 1] == a + b[..|b| - 1] && (a + b)[|a + b| - 1] == b[|b| - 1];
    }
  }

  lemma {:induction false} PublicationsCount(trace: seq<Effect>)
    ensures |Publications(trace)| == |OutcomeIds(trace)|
  {
    if trace != [] { PublicationsCount(trace[..|trace| - 1]); }
  }

  function PublishedIds(outcomes: seq<EngineOutcome>): multiset<OperationId> {
    if outcomes == [] then multiset{}
    else PublishedIds(outcomes[..|outcomes| - 1]) + multiset{outcomes[|outcomes| - 1].operation}
  }

  lemma {:induction false} PublicationIds(trace: seq<Effect>)
    ensures PublishedIds(Publications(trace)) == OutcomeIds(trace)
  {
    if trace != [] {
      var front, last := trace[..|trace| - 1], trace[|trace| - 1];
      PublicationIds(front);
      if last.PublishOutcome? {
        OneMore(Publications(front), EngineOutcome(last.epoch, last.operation, last.outcome));
      } else {
        assert Publications(front) + [] == Publications(front);
      }
    }
  }

  lemma OneMore(outcomes: seq<EngineOutcome>, o: EngineOutcome)
    ensures PublishedIds(outcomes + [o]) == PublishedIds(outcomes) + multiset{o.operation}
  {
    assert (outcomes + [o])[..|outcomes|] == outcomes;
  }

  function RetainedBy(outcomes: seq<EngineOutcome>): nat {
    if outcomes == [] then 0 else RetainedBy(outcomes[..|outcomes| - 1]) + outcomes[|outcomes| - 1].Retained()
  }

  ghost predicate Small(outcomes: seq<EngineOutcome>, bytes: nat) {
    forall j :: 0 <= j < |outcomes| ==> outcomes[j].Retained() <= bytes
  }

  lemma {:induction false} RetainedBound(outcomes: seq<EngineOutcome>, bytes: nat)
    requires Small(outcomes, bytes)
    ensures RetainedBy(outcomes) <= bytes * |outcomes|
  {
    if outcomes != [] {
      RetainedBound(outcomes[..|outcomes| - 1], bytes);
      assert bytes * |outcomes| == bytes * (|outcomes| - 1) + bytes;
    }
  }

  /** One more small outcome fits when its slot does. */
  lemma RetainedFits(outcomes: seq<EngineOutcome>, o: EngineOutcome, bytes: nat, capacity: nat)
    requires Small(outcomes, bytes) && o.Retained() <= bytes && |outcomes| < capacity
    ensures RetainedBy(outcomes) + o.Retained() <= bytes * capacity
  {
    RetainedBound(outcomes, bytes);
    Product(bytes, |outcomes| + 1, capacity);
    assert bytes * (|outcomes| + 1) == bytes * |outcomes| + bytes;
  }

  lemma {:induction false} Product(a: nat, b: nat, c: nat)
    requires b <= c
    ensures a * b <= a * c
  {
    assert a * c == a * b + a * (c - b);
  }

  // --------------------------------------------------------------- lifecycle

  /** Each edge at most once, in order, numbered from one without a gap. */
  ghost predicate Ordered(events: seq<ConnectionEvent>) {
    && (forall i :: 0 <= i < |events| ==> events[i].sequence == i + 1)
    && (forall i, j :: 0 <= i < j < |events| ==> events[i].Rank() < events[j].Rank())
  }

  /** Rank the next event must exceed. */
  function LastRank(events: seq<ConnectionEvent>): int {
    if events == [] then -1 else events[|events| - 1].Rank()
  }

  lemma {:induction false} RankAtLeast(events: seq<ConnectionEvent>, i: nat)
    requires Ordered(events) && i < |events|
    ensures i <= events[i].Rank()
  {
    if i > 0 { RankAtLeast(events, i - 1); }
  }

  lemma FewEvents(events: seq<ConnectionEvent>)
    requires Ordered(events)
    ensures |events| <= LastRank(events) + 1 <= 4
  {
    if events != [] { RankAtLeast(events, |events| - 1); }
  }
}
