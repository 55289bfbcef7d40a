/** Recovery in place: slots are emptied as their records find their place in wire order, frames
    leave the pool as their owners claim them. */
module WireOrder {
  import opened Primitives
  import opened KeySet
  import opened Ledger
  import opened Operations
  import opened Writer
  import opened Journal
  import opened Recovery

  // --------------------------------------------------------------- slots still filled

  /** The values left in a slot vector, in order. */
  function Compact<T>(slots: seq<Option<T>>): seq<T> {
    if slots == [] then []
    else (if slots[0].Some? then [slots[0].value] else []) + Compact(slots[1..])
  }

  lemma {:induction false} CompactConcat<T>(a: seq<Option<T>>, b: seq<Option<T>>)
    ensures Compact(a + b) == Compact(a) + Compact(b)
  {
    if a == [] {
      assert a + b == b;
    } else {
      CompactConcat(a[1..], b);
      assert (a + b)[1..] == a[1..] + b;
    }
  }

  /** Emptying a slot removes exactly its value. */
  lemma CompactTake<T>(slots: seq<Option<T>>, i: nat)
    requires i < |slots| && slots[i].Some?
    ensures var k := |Compact(slots[..i])|;
      k < |Compact(slots)| && Compact(slots)[k] == slots[i].value
      && Compact(slots[i := None]) == RemoveAt(Compact(slots), k)
  {
    hide Compact;
    var before, after := slots[..i], slots[i + 1..];
    var none: Option<T> := None;
    assert slots == before + ([slots[i]] + after) && slots[i := None] == before + ([none] + after);
    CompactAround(before, slots[i], after);
    CompactAround(before, none, after);
    RemovedMiddle(Compact(before), slots[i].value, Compact(after));
  }

  lemma CompactAround<T>(before: seq<Option<T>>, slot: Option<T>, after: seq<Option<T>>)
    ensures Compact(before + ([slot] + after))
      == Compact(before) + ((if slot.Some? then [slot.value] else []) + Compact(after))
  {
    CompactConcat(before, [slot] + after);
    CompactConcat([slot], after);
    CompactOne(slot);
    hide Compact;
  }

  lemma RemovedMiddle<T>(before: seq<T>, x: T, after: seq<T>)
    ensures (before + ([x] + after))[|before|] == x && RemoveAt(before + ([x] + after), |before|) == before + ([] + after)
  {
  }

  lemma CompactOne<T>(slot: Option<T>)
    ensures Compact([slot]) == if slot.Some? then [slot.value] else []
  {
    assert [slot][1..] == [];
  }

  lemma {:induction false} CompactMember<T>(slots: seq<Option<T>>, k: nat)
    requires k < |Compact(slots)|
    ensures exists j :: 0 <= j < |slots| && slots[j] == Some(Compact(slots)[k])
  {
    if slots[0].Some? {
      if k == 0 {
        assert slots[0] == Some(Compact(slots)[0]);
      } else {
        CompactMember(slots[1..], k - 1);
        var j :| 0 <= j < |slots[1..]| && slots[1..][j] == Some(Compact(slots[1..])[k - 1]);
        assert slots[j + 1] == Some(Compact(slots)[k]);
      }
    } else {
      CompactMember(slots[1..], k);
      var j :| 0 <= j < |slots[1..]| && slots[1..][j] == Some(Compact(slots[1..])[k]);
      assert slots[j + 1] == Some(Compact(slots)[k]);
    }
  }

  lemma {:induction false} CompactFull<T>(slots: seq<Option<T>>, values: seq<T>)
    requires |slots| == |values| && forall i :: 0 <= i < |slots| ==> slots[i] == Some(values[i])
    ensures Compact(slots) == values
  {
    if slots != [] {
      CompactFull(slots[1..], values[1..]);
    }
  }

  /** The values before the first slot to satisfy a property do not have it. */
  lemma CompactFirst<T(!new)>(slots: seq<Option<T>>, i: nat, p: T -> bool)
    requires i < |slots| && slots[i].Some? && p(slots[i].value)
    requires forall j :: 0 <= j < i && slots[j].Some? ==> !p(slots[j].value)
    ensures var k := |Compact(slots[..i])|;
      k < |Compact(slots)| && p(Compact(slots)[k]) && forall j :: 0 <= j < k ==> !p(Compact(slots)[j])
  {
    CompactTake(slots, i);
    CompactConcat(slots[..i], slots[i..]);
    assert slots == slots[..i] + slots[i..];
    forall j | 0 <= j < |Compact(slots[..i])| ensures !p(Compact(slots)[j]) {
      CompactMember(slots[..i], j);
    }
  }

  lemma CompactNone<T(!new)>(slots: seq<Option<T>>, p: T -> bool)
    requires forall j :: 0 <= j < |slots| && slots[j].Some? ==> !p(slots[j].value)
    ensures forall k :: 0 <= k < |Compact(slots)| ==> !p(Compact(slots)[k])
  {
    forall k | 0 <= k < |Compact(slots)| ensures !p(Compact(slots)[k]) {
      CompactMember(slots, k);
    }
  }

  lemma AtWireCompact(slots: seq<Option<JournalOperation>>, w: nat, i: nat)
    requires i < |slots| && slots[i].Some? && slots[i].value.wireIndex == w
    requires forall j :: 0 <= j < i && slots[j].Some? ==> slots[j].value.wireIndex != w
    ensures AtWire(Compact(slots), w) == Some(|Compact(slots[..i])|)
  {
    CompactFirst(slots, i, (e: JournalOperation) => e.wireIndex == w);
    hide Compact;
  }

  lemma IndexCompact(slots: seq<Option<Record>>, id: OperationId, i: nat)
    requires i < |slots| && slots[i].Some? && slots[i].value.id == id
    requires forall j :: 0 <= j < i && slots[j].Some? ==> slots[j].value.id != id
    ensures IndexOf(Compact(slots), id) == Some(|Compact(slots[..i])|)
  {
    CompactFirst(slots, i, (r: Record) => r.id == id);
    hide Compact;
  }

  lemma UnjournaledCompact(slots: seq<Option<Record>>, ids: set<OperationId>, i: nat)
    requires i < |slots| && slots[i].Some? && slots[i].value.id !in ids
    requires forall j :: 0 <= j < i && slots[j].Some? ==> slots[j].value.id in ids
    ensures FirstUnjournaled(Compact(slots), ids) == Some(|Compact(slots[..i])|)
  {
    CompactFirst(slots, i, (r: Record) => r.id !in ids);
    hide Compact;
  }

  /** First filled slot recording this wire index. */
  method FindAtWire(journal: array<Option<JournalOperation>>, w: nat) returns (index: Option<nat>)
    ensures index.Some? ==> index.value < journal.Length && journal[index.value].Some?
    ensures index.Some? ==> AtWire(Compact(journal[..]), w) == Some(|Compact(journal[..index.value])|)
    ensures index.None? ==> AtWire(Compact(journal[..]), w).None?
  {
    for i := 0 to journal.Length
      invariant forall j :: 0 <= j < i && journal[j].Some? ==> journal[j].value.wireIndex != w
    {
      if journal[i].Some? && journal[i].value.wireIndex == w {
        AtWireCompact(journal[..], w, i);
        assert journal[..][..i] == journal[..i];
        return Some(i);
      }
    }
    CompactNone(journal[..], (e: JournalOperation) => e.wireIndex == w);
    return None;
  }

  /** First filled slot holding this operation. */
  method FindRecord(records: array<Option<Record>>, id: OperationId) returns (index: Option<nat>)
    ensures index.Some? ==> index.value < records.Length && records[index.value].Some?
    ensures index.Some? ==> IndexOf(Compact(records[..]), id) == Some(|Compact(records[..index.value])|)
    ensures index.None? ==> IndexOf(Compact(records[..]), id).None?
  {
    for i := 0 to records.Length
      invariant forall j :: 0 <= j < i && records[j].Some? ==> records[j].value.id != id
    {
      if records[i].Some? && records[i].value.id == id {
        IndexCompact(records[..], id, i);
        assert records[..][..i] == records[..i];
        return Some(i);
      }
    }
    CompactNone(records[..], (r: Record) => r.id == id);
    return None;
  }

  /** First filled slot whose operation was not journaled. */
  method FindUnjournaled(records: array<Option<Record>>, ids: set<OperationId>) returns (index: Option<nat>)
    ensures index.Some? ==> index.value < records.Length && records[index.value].Some?
    ensures index.Some? ==> FirstUnjournaled(Compact(records[..]), ids) == Some(|Compact(records[..index.value])|)
    ensures index.None? ==> FirstUnjournaled(Compact(records[..]), ids).None?
  {
    for i := 0 to records.Length
      invariant forall j :: 0 <= j < i && records[j].Some? ==> records[j].value.id in ids
    {
      if records[i].Some? && records[i].value.id !in ids {
        UnjournaledCompact(records[..], ids, i);
        assert records[..][..i] == records[..i];
        return Some(i);
      }
    }
    CompactNone(records[..], (r: Record) => r.id !in ids);
    return None;
  }

  // --------------------------------------------------------------- rescued so far

  /** Frames not yet claimed, operations already recovered, and the shared ledger. */
  class Salvage {
    const ledger: ReservationLedger
    var writes: seq<DiscardedWrite>
    var operations: seq<RecoveredOperation>
    var diverged: bool

    ghost predicate Valid()
      reads this, ledger, ledger.activeKeys, ledger.activeKeys.slots
    {
      ledger.Valid()
    }

    ghost function Model(): Restoring
      reads this, ledger, ledger.activeKeys, ledger.activeKeys.slots
    {
      Restoring(writes, operations, ledger.Model(), diverged)
    }

    constructor (ledger: ReservationLedger, writes: seq<DiscardedWrite>, diverged: bool)
      ensures this.ledger == ledger && this.writes == writes && operations == [] && this.diverged == diverged
    {
      this.ledger, this.writes, operations, this.diverged := ledger, writes, [], diverged;
    }

    method TakeWrite(operation: OperationId, effect: EffectId) returns (write: Option<DiscardedWrite>)
      modifies this`writes
      ensures var index := WriteIndex(old(writes), operation, effect);
        write == (if index.Some? then Some(old(writes)[index.value]) else None)
        && writes == if index.Some? then RemoveAt(old(writes), index.value) else old(writes)
    {
      for i := 0 to |writes|
        invariant forall j :: 0 <= j < i ==> !(writes[j].operation == operation && writes[j].effect == effect)
        invariant writes == old(writes)
      {
        if writes[i].operation == operation && writes[i].effect == effect {
          write := Some(writes[i]);
          writes := RemoveAt(writes, i);
          return;
        }
      }
      return None;
    }

    /** One unfinished operation with its own frame; a finished one only lets its frame go. */
    method Recover(operation: OperationId, effect: EffectId, delivery: Delivery, writeHeld: bool, finished: bool)
      modifies this
      ensures Model() == Restore(old(Model()), operation, effect, delivery, writeHeld, finished)
    {
      var write := TakeWrite(operation, effect);
      if writeHeld != write.Some? {
        diverged := true;
      }
      var recovered := Rejoined(operation, delivery, write);
      if !finished {
        operations := operations + [recovered];
      }
    }

    method RecoverRecord(r: Record)
      requires Valid()
      modifies this, ledger, ledger.activeKeys, ledger.activeKeys.slots
      ensures Valid() && Model() == RestoreOne(old(Model()), FromPolicy(r))
    {
      hide NoGaps, Distinct, KeysOf, Release, WriteIndex, Restore;
      RestoreLedger(Model(), r.id, r.effect, r.delivery, r.writeHeld, r.phase.Terminal?);
      Recover(r.id, r.effect, r.delivery, r.writeHeld, r.phase.Terminal?);
      ledger.ReleaseAll(r.reservation, r.writeHeld, false);
    }

    static lemma RestoreLedger(
      s: Restoring, operation: OperationId, effect: EffectId, delivery: Delivery, writeHeld: bool, finished: bool)
      ensures Restore(s, operation, effect, delivery, writeHeld, finished).ledger == s.ledger
    {
    }

    method RecoverEntry(e: JournalOperation)
      requires Valid()
      modifies this
      ensures Valid() && Model() == RestoreOne(old(Model()), FromJournal(e))
    {
      hide NoGaps, Distinct, KeysOf, WriteIndex, Restore;
      if e.phase.Terminal? {
        return;
      }
      Recover(e.operation, e.effect, e.delivery, e.writeHeld, false);
    }
  }

  // --------------------------------------------------------------- flags

  function Flagged(s: Restoring, flag: bool): Restoring {
    s.(diverged := s.diverged || flag)
  }

  lemma FlagOne(s: Restoring, flag: bool, v: Survivor)
    ensures RestoreOne(Flagged(s, flag), v) == Flagged(RestoreOne(s, v), flag)
  {
    hide WriteIndex, Release;
  }

  lemma {:induction false} FlagAll(s: Restoring, flag: bool, survivors: seq<Survivor>)
    ensures RestoreAll(Flagged(s, flag), survivors) == Flagged(RestoreAll(s, survivors), flag)
  {
    if survivors != [] {
      FlagAll(s, flag, survivors[..|survivors| - 1]);
      FlagOne(RestoreAll(s, survivors[..|survivors| - 1]), flag, survivors[|survivors| - 1]);
      hide RestoreOne;
    }
  }

  lemma RestoreNext(s: Restoring, survivors: seq<Survivor>, v: Survivor)
    ensures RestoreAll(s, survivors + [v]) == RestoreOne(RestoreAll(s, survivors), v)
  {
    assert (survivors + [v])[..|survivors|] == survivors;
  }

  // --------------------------------------------------------------- everything at one wire index

  /** What one journal entry stands for. */
  function SurvivorOf(e: JournalOperation, current: seq<Record>): Survivor {
    var live := IndexOf(current, e.operation);
    if live.Some? then FromPolicy(current[live.value]) else FromJournal(e)
  }

  function WithoutEntry(e: JournalOperation, current: seq<Record>): seq<Record> {
    var live := IndexOf(current, e.operation);
    if live.Some? then RemoveAt(current, live.value) else current
  }

  /** The record under the journaled identity carries another write. */
  predicate Mismatch(e: JournalOperation, current: seq<Record>) {
    var live := IndexOf(current, e.operation);
    live.Some? && current[live.value].effect != e.effect
  }

  lemma TakeAtStep(w: nat, journal: seq<JournalOperation>, current: seq<Record>, k: nat)
    requires AtWire(journal, w) == Some(k)
    ensures var e := journal[k];
      var rest := TakeAt(w, RemoveAt(journal, k), WithoutEntry(e, current));
      TakeAt(w, journal, current)
        == Taken([SurvivorOf(e, current)] + rest.survivors, rest.journal, rest.current,
                 rest.diverged || rest.survivors != [] || Mismatch(e, current))
  {
  }

  function Joined(taken: seq<Survivor>, flag: bool, t: Taken): Taken {
    Taken(taken + t.survivors, t.journal, t.current, flag || t.diverged || (taken != [] && t.survivors != []))
  }

  lemma JoinStep(taken: seq<Survivor>, flag: bool, w: nat, journal: seq<JournalOperation>, current: seq<Record>, k: nat)
    requires AtWire(journal, w) == Some(k)
    ensures var e := journal[k];
      Joined(taken, flag, TakeAt(w, journal, current))
        == Joined(taken + [SurvivorOf(e, current)], flag || taken != [] || Mismatch(e, current),
                  TakeAt(w, RemoveAt(journal, k), WithoutEntry(e, current)))
  {
    TakeAtStep(w, journal, current, k);
    var rest := TakeAt(w, RemoveAt(journal, k), WithoutEntry(journal[k], current));
    assert taken + ([SurvivorOf(journal[k], current)] + rest.survivors) == taken + [SurvivorOf(journal[k],
      current)] + rest.survivors;
    hide TakeAt, SurvivorOf, WithoutEntry, Mismatch;
  }

  /** The slot vectors are nobody else's. */
  ghost predicate Apart(journal: array<Option<JournalOperation>>, records: array<Option<Record>>, salvage: Salvage) {
    && journal as object != records as object
    && journal as object != salvage.ledger.activeKeys.slots as object
    && records as object != salvage.ledger.activeKeys.slots as object
  }

  /** Empties one journal slot, and the slot of its record if that survived. */
  method RestoreSlot(journal: array<Option<JournalOperation>>, i: nat, records: array<Option<Record>>, salvage: Salvage)
    requires salvage.Valid() && Apart(journal, records, salvage) && i < journal.Length && journal[i].Some?
    modifies journal, records, salvage, salvage.ledger, salvage.ledger.activeKeys, salvage.ledger.activeKeys.slots
    ensures salvage.Valid() && |Compact(old(journal[..i]))| < |Compact(old(journal[..]))|
    ensures Compact(journal[..]) == RemoveAt(Compact(old(journal[..])), |Compact(old(journal[..i]))|)
    ensures var e := Compact(old(journal[..]))[|Compact(old(journal[..i]))|];
      Compact(records[..]) == WithoutEntry(e, Compact(old(records[..])))
      && salvage.Model() == Flagged(RestoreOne(old(salvage.Model()), SurvivorOf(e, Compact(old(records[..])))),
                                    Mismatch(e, Compact(old(records[..]))))
  {
    hide NoGaps, Distinct, KeysOf, Compact, RestoreOne, IndexOf;
    var e := journal[i].value;
    CompactTake(journal[..], i);
    assert journal[..][..i] == journal[..i];
    var index := FindRecord(records, e.operation);
    ghost var all := records[..];
    journal[i] := None;
    assert journal[..] == old(journal[..])[i := None];
    if index.Some? {
      var r := records[index.value].value;
      CompactTake(all, index.value);
      assert all[..index.value] == records[..index.value];
      records[index.value] := None;
      assert records[..] == all[index.value := None];
      if r.effect != e.effect {
        salvage.diverged := true;
      }
      FlagOne(old(salvage.Model()), r.effect != e.effect, FromPolicy(r));
      salvage.RecoverRecord(r);
    } else {
      salvage.RecoverEntry(e);
    }
  }

  /** Restores everything journaled at one wire index; a second entry there is a divergence. */
  method RestoreWire(w: nat, journal: array<Option<JournalOperation>>, records: array<Option<Record>>, salvage: Salvage)
    returns (found: bool, ghost taken: seq<Survivor>)
    requires salvage.Valid() && Apart(journal, records, salvage)
    modifies journal, records, salvage, salvage.ledger, salvage.ledger.activeKeys, salvage.ledger.activeKeys.slots
    ensures salvage.Valid()
    ensures var t := TakeAt(w, Compact(old(journal[..])), Compact(old(records[..])));
      taken == t.survivors && (found <==> taken != [])
      && Compact(journal[..]) == t.journal && Compact(records[..]) == t.current
      && salvage.Model() == Flagged(RestoreAll(old(salvage.Model()), taken), t.diverged)
  {
    hide NoGaps, Distinct, KeysOf, Compact, RestoreOne, SurvivorOf, WithoutEntry, Mismatch, TakeAt, Joined, RestoreAll,
      AtWire;
    ghost var flag := false;
    found, taken := false, [];
    var next := FindAtWire(journal, w);
    JoinedNone(TakeAt(w, Compact(journal[..]), Compact(records[..])));
    RestoreNone(salvage.Model());
    while next.Some?
      invariant salvage.Valid() && (found <==> taken != [])
      invariant next.Some? ==> 0 <= next.value < journal.Length && journal[next.value].Some?
      invariant next.Some? ==> AtWire(Compact(journal[..]), w) == Some(|Compact(journal[..next.value])|)
      invariant next.None? ==> AtWire(Compact(journal[..]), w).None?
      invariant TakeAt(w, Compact(old(journal[..])), Compact(old(records[..])))
             == Joined(taken, flag, TakeAt(w, Compact(journal[..]), Compact(records[..])))
      invariant salvage.Model() == Flagged(RestoreAll(old(salvage.Model()), taken), flag)
      decreases |Compact(journal[..])|
    {
      ghost var k := |Compact(journal[..next.value])|;
      ghost var e, current := Compact(journal[..])[k], Compact(records[..]);
      JoinStep(taken, flag, w, Compact(journal[..]), current, k);
      if found {
        salvage.diverged := true;
      }
      found := true;
      FlagOne(RestoreAll(old(salvage.Model()), taken), flag || taken != [], SurvivorOf(e, current));
      RestoreSlot(journal, next.value, records, salvage);
      RestoreNext(old(salvage.Model()), taken, SurvivorOf(e, current));
      taken, flag := taken + [SurvivorOf(e, current)], flag || taken != [] || Mismatch(e, current);
      next := FindAtWire(journal, w);
    }
    TakeAtNone(w, Compact(journal[..]), Compact(records[..]));
    JoinedAll(taken, flag, Compact(journal[..]), Compact(records[..]));
  }

  lemma RestoreNone(s: Restoring)
    ensures RestoreAll(s, []) == s
  {
  }

  lemma JoinedAll(taken: seq<Survivor>, flag: bool, journal: seq<JournalOperation>, current: seq<Record>)
    ensures Joined(taken, flag, Taken([], journal, current, false)) == Taken(taken, journal, current, flag)
  {
  }

  lemma JoinedNone(t: Taken)
    ensures Joined([], false, t) == t
  {
  }

  lemma TakeAtNone(w: nat, journal: seq<JournalOperation>, current: seq<Record>)
    requires AtWire(journal, w).None?
    ensures TakeAt(w, journal, current) == Taken([], journal, current, false)
  {
  }

  // --------------------------------------------------------------- the whole order

  function Accumulated(done: seq<Survivor>, split: bool, m: Merged): Merged {
    Merged(done + m.survivors, split || m.diverged)
  }

  lemma AccumulateTaken(done: seq<Survivor>, split: bool, w: nat, n: nat, journal: seq<JournalOperation>,
      current: seq<Record>, ids: set<OperationId>)
    requires w < n && TakeAt(w, journal, current).survivors != []
    ensures var t := TakeAt(w, journal, current);
      Accumulated(done, split, MergeFrom(w, n, journal, current, ids))
        == Accumulated(done + t.survivors, split || t.diverged, MergeFrom(w + 1, n, t.journal, t.current, ids))
  {
    var t := TakeAt(w, journal, current);
    var rest := MergeFrom(w + 1, n, t.journal, t.current, ids);
    assert done + (t.survivors + rest.survivors) == done + t.survivors + rest.survivors;
    hide TakeAt;
  }

  lemma AccumulateUnjournaled(done: seq<Survivor>, split: bool, w: nat, n: nat, journal: seq<JournalOperation>,
      current: seq<Record>, ids: set<OperationId>, k: nat)
    requires w < n && TakeAt(w, journal, current).survivors == [] && FirstUnjournaled(current, ids) == Some(k)
    ensures Accumulated(done, split, MergeFrom(w, n, journal, current, ids))
         == Accumulated(done + [FromPolicy(current[k])], split, MergeFrom(w + 1, n, journal, RemoveAt(current, k), ids))
  {
    var rest := MergeFrom(w + 1, n, journal, RemoveAt(current, k), ids);
    assert done + ([FromPolicy(current[k])] + rest.survivors) == done + [FromPolicy(current[k])] + rest.survivors;
    hide TakeAt;
  }

  lemma AccumulateMissing(done: seq<Survivor>, split: bool, w: nat, n: nat, journal: seq<JournalOperation>,
      current: seq<Record>, ids: set<OperationId>)
    requires w < n && TakeAt(w, journal, current).survivors == [] && FirstUnjournaled(current, ids).None?
    ensures Accumulated(done, split, MergeFrom(w, n, journal, current, ids))
         == Accumulated(done, true, MergeFrom(w + 1, n, journal, current, ids))
  {
    hide TakeAt;
  }

  lemma AccumulateLeft(done: seq<Survivor>, split: bool, n: nat, journal: seq<JournalOperation>,
      current: seq<Record>, ids: set<OperationId>)
    ensures Accumulated(done, split, MergeFrom(n, n, journal, current, ids))
         == Merged(done + Leftover(journal, current), split || journal != [] || current != [])
  {
  }

  lemma {:induction false} RestoreConcat(s: Restoring, a: seq<Survivor>, b: seq<Survivor>)
    ensures RestoreAll(s, a + b) == RestoreAll(RestoreAll(s, a), b)
  {
    hide RestoreOne;
    if b == [] {
      assert a + b == a;
    } else {
      hide RestoreAll;
      var all := a + b;
      RestoreConcat(s, a, b[..|b| - 1]);
      RestoreLast(s, all);
      RestoreLast(RestoreAll(s, a), b);
      assert all[..|all| - 1] == a + b[..|b| - 1] && all[|all| - 1] == b[|b| - 1];
    }
  }

  lemma RestoreLast(s: Restoring, all: seq<Survivor>)
    requires all != []
    ensures RestoreAll(s, all) == RestoreOne(RestoreAll(s, all[..|all| - 1]), all[|all| - 1])
  {
    hide RestoreOne;
  }

  /** Restoring more after a flag was raised. */
  lemma RestoreMore(s: Restoring, split: bool, done: seq<Survivor>, more: seq<Survivor>, flag: bool)
    ensures Flagged(RestoreAll(Flagged(RestoreAll(s, done), split), more), flag)
         == Flagged(RestoreAll(s, done + more), split || flag)
  {
    RestoreConcat(s, done, more);
    FlagAll(RestoreAll(s, done), split, more);
    hide RestoreAll;
  }

  /** Restores the first record the journal does not know, if any. */
  method RestoreUnjournaled(records: array<Option<Record>>, ids: set<OperationId>, salvage: Salvage)
    returns (found: bool)
    requires salvage.Valid() && records as object != salvage.ledger.activeKeys.slots as object
    modifies records, salvage, salvage.ledger, salvage.ledger.activeKeys, salvage.ledger.activeKeys.slots
    ensures salvage.Valid()
    ensures var next := FirstUnjournaled(Compact(old(records[..])), ids);
      (found <==> next.Some?)
      && Compact(records[..]) == (if found then RemoveAt(Compact(old(records[..])),
        next.value) else Compact(old(records[..])))
      && salvage.Model() == (if found then RestoreOne(old(salvage.Model()), FromPolicy(Compact(old(records[..]))[next.value]))
                             else Flagged(old(salvage.Model()), true))
  {
    hide NoGaps, Distinct, KeysOf, Compact, RestoreOne, FirstUnjournaled;
    var index := FindUnjournaled(records, ids);
    if index.None? {
      salvage.diverged := true;
      return false;
    }
    var r := records[index.value].value;
    ghost var all := records[..];
    CompactTake(all, index.value);
    assert all[..index.value] == records[..index.value];
    records[index.value] := None;
    assert records[..] == all[index.value := None];
    salvage.RecoverRecord(r);
    return true;
  }

  /** One round of the merge. */
  method RestorePosition(
    w: nat, n: nat, journal: array<Option<JournalOperation>>, records: array<Option<Record>>, ids: set<OperationId>,
                         salvage: Salvage, ghost done: seq<Survivor>, ghost split: bool, ghost start: Restoring)
    returns (ghost more: seq<Survivor>, ghost flag: bool)
    requires salvage.Valid() && Apart(journal, records, salvage) && w < n
    requires salvage.Model() == Flagged(RestoreAll(start, done), split)
    modifies journal, records, salvage, salvage.ledger, salvage.ledger.activeKeys, salvage.ledger.activeKeys.slots
    ensures salvage.Valid() && salvage.Model() == Flagged(RestoreAll(start, more), flag)
    ensures Accumulated(done, split, MergeFrom(w, n, Compact(old(journal[..])), Compact(old(records[..])), ids))
         == Accumulated(more, flag, MergeFrom(w + 1, n, Compact(journal[..]), Compact(records[..]), ids))
  {
    hide NoGaps, Distinct, KeysOf, Compact, RestoreOne, RestoreAll, TakeAt, MergeFrom, FirstUnjournaled, Accumulated,
      Flagged;
    ghost var j, c := Compact(journal[..]), Compact(records[..]);
    ghost var t := TakeAt(w, j, c);
    var found, taken := RestoreWire(w, journal, records, salvage);
    if found {
      AccumulateTaken(done, split, w, n, j, c, ids);
      RestoreMore(start, split, done, taken, t.diverged);
      more, flag := done + taken, split || t.diverged;
      return;
    }
    NothingTaken(w, j, c);
    RestoreMore(start, split, done, [], false);
    assert done + [] == done;
    ghost var next := FirstUnjournaled(c, ids);
    found := RestoreUnjournaled(records, ids, salvage);
    if found {
      AccumulateUnjournaled(done, split, w, n, j, c, ids, next.value);
      FlagOne(RestoreAll(start, done), split, FromPolicy(c[next.value]));
      RestoreNext(start, done, FromPolicy(c[next.value]));
      more, flag := done + [FromPolicy(c[next.value])], split;
    } else {
      AccumulateMissing(done, split, w, n, j, c, ids);
      FlagTwice(RestoreAll(start, done), split, true);
      more, flag := done, true;
    }
  }

  lemma FlagTwice(s: Restoring, a: bool, b: bool)
    ensures Flagged(Flagged(s, a), b) == Flagged(s, a || b)
  {
  }

  lemma {:induction false} NothingTaken(w: nat, journal: seq<JournalOperation>, current: seq<Record>)
    requires TakeAt(w, journal, current).survivors == []
    ensures TakeAt(w, journal, current) == Taken([], journal, current, false)
  {
  }

  function FromPolicies(current: seq<Record>): (r: seq<Survivor>)
    ensures |r| == |current| && forall i :: 0 <= i < |r| ==> r[i] == FromPolicy(current[i])
  {
    seq(|current|, i requires 0 <= i < |current| => FromPolicy(current[i]))
  }

  function FromEntries(journal: seq<JournalOperation>): (r: seq<Survivor>)
    ensures |r| == |journal| && forall i :: 0 <= i < |r| ==> r[i] == FromJournal(journal[i])
  {
    seq(|journal|, i requires 0 <= i < |journal| => FromJournal(journal[i]))
  }

  lemma CompactNext<T>(slots: seq<Option<T>>, i: nat)
    requires i < |slots|
    ensures Compact(slots[..i + 1]) == if slots[i].Some? then Compact(slots[..i]) + [slots[i].value] else Compact(slots[..i])
  {
    assert slots[..i + 1] == slots[..i] + [slots[i]];
    CompactConcat(slots[..i], [slots[i]]);
    CompactOne(slots[i]);
    hide Compact;
  }

  /** Records no position claimed are recovered after the rest. */
  method RestoreRecords(records: array<Option<Record>>, salvage: Salvage)
    requires salvage.Valid() && records as object != salvage.ledger.activeKeys.slots as object
    modifies records, salvage, salvage.ledger, salvage.ledger.activeKeys, salvage.ledger.activeKeys.slots
    ensures salvage.Valid()
    ensures var left := Compact(old(records[..]));
      salvage.Model() == Flagged(RestoreAll(old(salvage.Model()), FromPolicies(left)), left != [])
  {
    hide NoGaps, Distinct, KeysOf, Compact, RestoreOne, RestoreAll;
    ghost var all := records[..];
    CompactZero(all);
    RestoreNone(salvage.Model());
    for i := 0 to records.Length
      invariant salvage.Valid() && forall j :: i <= j < records.Length ==> records[j] == all[j]
      invariant salvage.Model()
             == Flagged(RestoreAll(old(salvage.Model()), FromPolicies(Compact(all[..i]))), Compact(all[..i]) != [])
    {
      CompactNext(all, i);
      if records[i].Some? {
        var r := records[i].value;
        records[i] := None;
        ghost var before := FromPolicies(Compact(all[..i]));
        FlagOne(RestoreAll(old(salvage.Model()), before), true, FromPolicy(r));
        RestoreNext(old(salvage.Model()), before, FromPolicy(r));
        assert FromPolicies(Compact(all[..i + 1])) == before + [FromPolicy(r)];
        salvage.diverged := true;
        salvage.RecoverRecord(r);
      }
    }
    assert all[..records.Length] == all;
  }

  /** ... and so are journal entries beyond the last position. */
  method RestoreEntries(journal: array<Option<JournalOperation>>, salvage: Salvage)
    requires salvage.Valid() && journal as object != salvage.ledger.activeKeys.slots as object
    modifies salvage
    ensures salvage.Valid()
    ensures var left := Compact(journal[..]);
      salvage.Model() == Flagged(RestoreAll(old(salvage.Model()), FromEntries(left)), left != [])
  {
    hide NoGaps, Distinct, KeysOf, Compact, RestoreOne, RestoreAll;
    ghost var all := journal[..];
    CompactZero(all);
    RestoreNone(salvage.Model());
    for i := 0 to journal.Length
      invariant salvage.Valid()
      invariant salvage.Model()
             == Flagged(RestoreAll(old(salvage.Model()), FromEntries(Compact(all[..i]))), Compact(all[..i]) != [])
    {
      CompactNext(all, i);
      if journal[i].Some? {
        var e := journal[i].value;
        ghost var before := FromEntries(Compact(all[..i]));
        FlagOne(RestoreAll(old(salvage.Model()), before), true, FromJournal(e));
        RestoreNext(old(salvage.Model()), before, FromJournal(e));
        assert FromEntries(Compact(all[..i + 1])) == before + [FromJournal(e)];
        salvage.diverged := true;
        salvage.RecoverEntry(e);
      }
    }
    assert all[..journal.Length] == all;
  }

  lemma CompactZero<T>(slots: seq<Option<T>>)
    ensures Compact(slots[..0]) == []
  {
  }

  lemma LeftoverParts(journal: seq<JournalOperation>, current: seq<Record>)
    ensures Leftover(journal, current) == FromPolicies(current) + FromEntries(journal)
  {
  }

  /** Journal entries whose record is gone. */
  method CountMissing(journal: seq<JournalOperation>, records: array<Option<Record>>) returns (missing: nat)
    ensures missing == Missing(journal, Compact(records[..]))
  {
    hide Compact;
    missing := 0;
    for i := 0 to |journal|
      invariant missing == Missing(journal[..i], Compact(records[..]))
    {
      assert journal[..i + 1][..i] == journal[..i];
      var index := FindRecord(records, journal[i].operation);
      if index.None? {
        missing := missing + 1;
      }
    }
    assert journal[..|journal|] == journal;
  }

  method AnyBeyond(journal: seq<JournalOperation>, n: nat) returns (found: bool)
    ensures found <==> exists e :: e in journal && e.wireIndex >= n
  {
    for i := 0 to |journal|
      invariant forall j :: 0 <= j < i ==> journal[j].wireIndex < n
    {
      if journal[i].wireIndex >= n {
        assert journal[i] in journal;
        return true;
      }
    }
    return false;
  }

  method IdsOf(journal: seq<JournalOperation>) returns (ids: set<OperationId>)
    ensures ids == JournalIds(journal)
  {
    ids := {};
    for i := 0 to |journal|
      invariant ids == JournalIds(journal[..i])
    {
      assert JournalIds(journal[..i + 1]) == JournalIds(journal[..i]) + {journal[i].operation} by { IdsNext(journal, i); }
      ids := ids + {journal[i].operation};
    }
    assert journal[..|journal|] == journal;
  }

  lemma IdsNext(journal: seq<JournalOperation>, i: nat)
    requires i < |journal|
    ensures JournalIds(journal[..i + 1]) == JournalIds(journal[..i]) + {journal[i].operation}
  {
    var more, less := journal[..i + 1], journal[..i];
    forall x | x in JournalIds(less) + {journal[i].operation} ensures x in JournalIds(more) {
      if x in JournalIds(less) {
        var j :| 0 <= j < |less| && less[j].operation == x;
        assert more[j].operation == x;
      } else {
        assert more[i].operation == x;
      }
    }
    forall x | x in JournalIds(more) ensures x in JournalIds(less) + {journal[i].operation} {
      var j :| 0 <= j < |more| && more[j].operation == x;
      if j < i { assert less[j].operation == x; }
    }
  }

  lemma MergeFlags(start: Restoring, journal: seq<JournalOperation>, current: seq<Record>, n: nat, beyond: bool,
      done: seq<Survivor>, split: bool)
    requires n == |current| + Missing(journal, current) && (beyond <==> exists e :: e in journal && e.wireIndex >= n)
    requires Merged(done, split) == MergeFrom(0, n, journal, current, JournalIds(journal))
    ensures Flagged(RestoreAll(Flagged(start, beyond), done), split)
         == RestoreAll(Flagged(start, Merge(journal, current).diverged), Merge(journal, current).survivors)
  {
    FlagAll(start, beyond, done);
    FlagAll(start, Merge(journal, current).diverged, done);
    hide MergeFrom, RestoreAll;
  }

  /** What has no place in wire order comes last: records first, then journal entries. */
  method RestoreLeftovers(journal: array<Option<JournalOperation>>, records: array<Option<Record>>, salvage: Salvage,
      ghost done: seq<Survivor>, ghost split: bool, ghost start: Restoring)
    requires salvage.Valid() && Apart(journal, records, salvage)
    requires salvage.Model() == Flagged(RestoreAll(start, done), split)
    modifies journal, records, salvage, salvage.ledger, salvage.ledger.activeKeys, salvage.ledger.activeKeys.slots
    ensures salvage.Valid()
    ensures var j, c := Compact(old(journal[..])), Compact(old(records[..]));
      salvage.Model() == Flagged(RestoreAll(start, done + Leftover(j, c)), split || c != [] || j != [])
  {
    hide NoGaps, Distinct, KeysOf, Compact, RestoreOne, RestoreAll, Flagged;
    ghost var j, c := Compact(journal[..]), Compact(records[..]);
    LeftoverParts(j, c);
    RestoreRecords(records, salvage);
    RestoreMore(start, split, done, FromPolicies(c), c != []);
    RestoreEntries(journal, salvage);
    RestoreMore(start, split || c != [], done + FromPolicies(c), FromEntries(j), j != []);
    assert done + FromPolicies(c) + FromEntries(j) == done + Leftover(j, c);
  }

  /** Puts every journaled and surviving record back in wire order, each with its own frame. */
  method RecoverInWireOrder(entries: seq<JournalOperation>, records: array<Option<Record>>, salvage: Salvage)
    requires salvage.Valid() && records as object != salvage.ledger.activeKeys.slots as object
    requires |Compact(records[..])| == records.Length
    modifies records, salvage, salvage.ledger, salvage.ledger.activeKeys, salvage.ledger.activeKeys.slots
    ensures salvage.Valid()
    ensures var merged := Merge(entries, Compact(old(records[..])));
      salvage.Model() == RestoreAll(Flagged(old(salvage.Model()), merged.diverged), merged.survivors)
  {
    hide NoGaps, Distinct, KeysOf, Compact, RestoreOne, RestoreAll, MergeFrom, Accumulated, Flagged, Missing, Merge;
    ghost var current := Compact(records[..]);
    var ids := IdsOf(entries);
    var missing := CountMissing(entries, records);
    var n := records.Length + missing;
    var beyond := AnyBeyond(entries, n);
    ghost var start := Flagged(salvage.Model(), beyond);
    if beyond {
      salvage.diverged := true;
    }
    assert salvage.Model() == start by { FlagBegin(old(salvage.Model()), beyond); }
    var journal := new Option<JournalOperation>[|entries|](i requires 0 <= i < |entries| => Some(entries[i]));
    CompactFull(journal[..], entries);
    ghost var done, split := [], false;
    AccumulatedNone(MergeFrom(0, n, entries, current, ids));
    FlagNone(start);
    for w := 0 to n
      invariant salvage.Valid() && Apart(journal, records, salvage)
      invariant salvage.Model() == Flagged(RestoreAll(start, done), split)
      invariant MergeFrom(0, n, entries, current, ids)
             == Accumulated(done, split, MergeFrom(w, n, Compact(journal[..]), Compact(records[..]), ids))
    {
      done, split := RestorePosition(w, n, journal, records, ids, salvage, done, split, start);
    }
    ghost var j, c := Compact(journal[..]), Compact(records[..]);
    AccumulateLeft(done, split, n, j, c, ids);
    RestoreLeftovers(journal, records, salvage, done, split, start);
    MergeFlags(old(salvage.Model()), entries, current, n, beyond, done + Leftover(j, c), split || c != [] || j != []);
  }

  lemma FlagBegin(s: Restoring, flag: bool)
    ensures (if flag then s.(diverged := true) else s) == Flagged(s, flag)
  {
  }

  lemma AccumulatedNone(m: Merged)
    ensures Accumulated([], false, m) == m
  {
    assert [] + m.survivors == m.survivors;
  }

  lemma FlagNone(s: Restoring)
    ensures Flagged(RestoreAll(s, []), false) == s
  {
  }
}