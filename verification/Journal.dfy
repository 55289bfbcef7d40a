/** Preallocated fallback ownership kept across one transition, so a fault partway loses nothing. */
module Journal {
  import opened Primitives
  import opened Operations
  import opened Writer

  datatype JournalOperation = JournalOperation(
    wireIndex: nat, operation: OperationId, effect: EffectId,
    delivery: Delivery, phase: OperationPhase, writeHeld: bool)

  datatype JournalState = JournalState(
    maxOperations: nat, maxWrites: nat,
    operations: seq<JournalOperation>, writes: seq<DiscardedWrite>,
    overflow: Option<DiscardedWrite>, armed: bool)

  function InitialJournal(maxOperations: nat, maxWrites: nat): JournalState {
    JournalState(maxOperations, maxWrites, [], [], None, false)
  }

  function Entry(r: Record, wireIndex: nat): JournalOperation {
    JournalOperation(wireIndex, r.id, r.effect, r.delivery, r.phase, r.writeHeld)
  }

  function Entries(pending: seq<Record>): (r: seq<JournalOperation>)
    ensures |r| == |pending|
    ensures forall i :: 0 <= i < |pending| ==> r[i] == Entry(pending[i], i)
  {
    seq(|pending|, i requires 0 <= i < |pending| => Entry(pending[i], i))
  }

  function Cleared(j: JournalState): JournalState {
    InitialJournal(j.maxOperations, j.maxWrites)
  }

  function RetainOperation(j: JournalState, r: Record, wireIndex: nat): (JournalState, bool) {
    if |j.operations| < j.maxOperations
    then (j.(operations := j.operations + [Entry(r, wireIndex)]), true)
    else (j, false)
  }

  function Begin(j: JournalState, pending: seq<Record>): (JournalState, bool) {
    if |pending| <= j.maxOperations
    then (Cleared(j).(operations := Entries(pending), armed := true), true)
    else (Cleared(j), false)
  }

  function BeginProgress(j: JournalState): JournalState {
    Cleared(j).(armed := true)
  }

  function BeginOperation(j: JournalState, r: Record, wireIndex: nat): (JournalState, bool) {
    RetainOperation(BeginProgress(j), r, wireIndex)
  }

  function RetainWrite(j: JournalState, write: DiscardedWrite): (JournalState, bool) {
    if |j.writes| < j.maxWrites then (j.(writes := j.writes + [write]), true)
    else (j.(overflow := if j.overflow.None? then Some(write) else j.overflow), false)
  }

  function HeldWrites(j: JournalState): seq<DiscardedWrite> {
    j.writes + (if j.overflow.Some? then [j.overflow.value] else [])
  }

  /** The slots are allocated once; a transition fills and clears them in place. */
  class RecoveryJournal {
    const operations: array<Option<JournalOperation>>
    var operationLen: nat
    const writes: array<Option<DiscardedWrite>>
    var writeLen: nat
    var overflow: Option<DiscardedWrite>
    var armed: bool
    ghost var ops: seq<JournalOperation>
    ghost var held: seq<DiscardedWrite>

    ghost predicate Valid()
      reads this, operations, writes
    {
      && operationLen == |ops| <= operations.Length
      && writeLen == |held| <= writes.Length
      && (forall i :: 0 <= i < operations.Length ==>
            operations[i] == if i < operationLen then Some(ops[i]) else None)
      && (forall i :: 0 <= i < writes.Length ==>
            writes[i] == if i < writeLen then Some(held[i]) else None)
    }

    ghost function Model(): JournalState
      reads this
    {
      JournalState(operations.Length, writes.Length, ops, held, overflow, armed)
    }

    constructor (maxOperations: nat, maxWrites: nat)
      ensures Valid() && Model() == InitialJournal(maxOperations, maxWrites)
      ensures fresh(operations) && fresh(writes)
    {
      operations := new Option<JournalOperation>[maxOperations](_ => None);
      writes := new Option<DiscardedWrite>[maxWrites](_ => None);
      operationLen, writeLen, overflow, armed := 0, 0, None, false;
      ops, held := [], [];
    }

    method Clear()
      requires Valid()
      modifies this, operations, writes
      ensures Valid() && Model() == Cleared(old(Model()))
    {
      for i := 0 to operationLen
        invariant operationLen == old(operationLen) && writeLen == old(writeLen)
        invariant ops == old(ops) && held == old(held)
        invariant forall k :: 0 <= k < operations.Length ==>
          operations[k] == if i <= k < operationLen then Some(ops[k]) else None
        invariant forall k :: 0 <= k < writes.Length ==> writes[k] == old(writes[k])
      {
        operations[i] := None;
      }
      operationLen, ops := 0, [];
      for i := 0 to writeLen
        invariant operationLen == 0 && ops == [] && writeLen == old(writeLen) && held == old(held)
        invariant forall k :: 0 <= k < operations.Length ==> operations[k] == None
        invariant forall k :: 0 <= k < writes.Length ==>
          writes[k] == if i <= k < writeLen then Some(held[k]) else None
      {
        writes[i] := None;
      }
      writeLen, held := 0, [];
      overflow, armed := None, false;
    }

    method Retain(r: Record, wireIndex: nat) returns (kept: bool)
      requires Valid()
      modifies this, operations
      ensures Valid() && (Model(), kept) == RetainOperation(old(Model()), r, wireIndex)
    {
      if operationLen == operations.Length {
        return false;
      }
      operations[operationLen] := Some(Entry(r, wireIndex));
      operationLen, ops := operationLen + 1, ops + [Entry(r, wireIndex)];
      return true;
    }

    method BeginAll(pending: seq<Record>) returns (kept: bool)
      requires Valid()
      modifies this, operations, writes
      ensures Valid() && (Model(), kept) == Begin(old(Model()), pending)
    {
      Clear();
      for i := 0 to |pending|
        invariant Valid()
        invariant Model() == Cleared(old(Model())).(operations := Entries(pending)[..i])
      {
        var stored := Retain(pending[i], i);
        if !stored {
          Clear();
          return false;
        }
        assert Entries(pending)[..i + 1] == Entries(pending)[..i] + [Entry(pending[i], i)];
      }
      assert Entries(pending)[..|pending|] == Entries(pending);
      armed := true;
      return true;
    }

    method BeginWriteProgress()
      requires Valid()
      modifies this, operations, writes
      ensures Valid() && Model() == BeginProgress(old(Model()))
    {
      Clear();
      armed := true;
    }

    method BeginOne(r: Record, wireIndex: nat) returns (kept: bool)
      requires Valid()
      modifies this, operations, writes
      ensures Valid() && (Model(), kept) == BeginOperation(old(Model()), r, wireIndex)
    {
      Clear();
      armed := true;
      kept := Retain(r, wireIndex);
    }

    method Store(write: DiscardedWrite) returns (kept: bool)
      requires Valid()
      modifies this, writes
      ensures Valid() && (Model(), kept) == RetainWrite(old(Model()), write)
    {
      if writeLen < writes.Length {
        writes[writeLen] := Some(write);
        writeLen, held := writeLen + 1, held + [write];
        return true;
      }
      if overflow.None? {
        overflow := Some(write);
      }
      return false;
    }

    method TakeOperations() returns (taken: seq<JournalOperation>)
      requires Valid()
      modifies this, operations
      ensures Valid() && taken == old(ops)
      ensures Model() == old(Model()).(operations := [])
    {
      taken := [];
      for i := 0 to operationLen
        invariant operationLen == old(operationLen) && writeLen == old(writeLen)
        invariant ops == old(ops) && held == old(held) && armed == old(armed) && overflow == old(overflow)
        invariant taken == ops[..i]
        invariant forall k :: 0 <= k < operations.Length ==>
          operations[k] == if i <= k < operationLen then Some(ops[k]) else None
        invariant forall k :: 0 <= k < writes.Length ==> writes[k] == old(writes[k])
      {
        taken := taken + [operations[i].value];
        operations[i] := None;
      }
      operationLen, ops := 0, [];
    }

    method TakeWrites() returns (taken: seq<DiscardedWrite>)
      requires Valid()
      modifies this, writes
      ensures Valid() && taken == HeldWrites(old(Model()))
      ensures Model() == old(Model()).(writes := [], overflow := None, armed := false)
    {
      taken := [];
      for i := 0 to writeLen
        invariant operationLen == old(operationLen) && writeLen == old(writeLen)
        invariant ops == old(ops) && held == old(held) && armed == old(armed) && overflow == old(overflow)
        invariant taken == held[..i]
        invariant forall k :: 0 <= k < writes.Length ==>
          writes[k] == if i <= k < writeLen then Some(held[k]) else None
        invariant forall k :: 0 <= k < operations.Length ==> operations[k] == old(operations[k])
      {
        taken := taken + [writes[i].value];
        writes[i] := None;
      }
      writeLen, held := 0, [];
      if overflow.Some? {
        taken := taken + [overflow.value];
      }
      overflow, armed := None, false;
    }
  }
}
