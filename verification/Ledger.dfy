/** Capacity accounting shared by affine permits and accepted operations. */
module Ledger {
  import opened Primitives
  import opened KeySet

  datatype LimitsError = ZeroOperationCapacity | ZeroWriteCapacity | EmptyMatchKeySpace

  /** Count, byte and match-key bounds of one connection epoch. */
  datatype Limits = Limits(
    maxOperations: U64, maxRetained: U64, maxFrames: U64, maxWriteRetained: U64,
    firstKey: Key, lastKey: Key)
  {
    predicate Valid() {
      0 < maxOperations && 0 < maxFrames && firstKey <= lastKey
    }

    function Capacity(): int {
      lastKey - firstKey + 1
    }

    predicate InSpace(key: Key) {
      firstKey <= key <= lastKey
    }

    function NextKey(current: Key): (next: Key)
      requires Valid() && InSpace(current)
      ensures InSpace(next)
    {
      if current == lastKey then firstKey else current + 1
    }

    /** The key `j` steps after `from` in cyclic order. */
    function NthKey(from: Key, j: nat): (key: Key)
      requires Valid() && InSpace(from) && j < Capacity()
      ensures InSpace(key)
    {
      if from + j <= lastKey then from + j else from + j - Capacity()
    }
  }

  function NewLimits(
    maxOperations: U64, maxRetained: U64, maxFrames: U64, maxWriteRetained: U64,
    firstKey: Key, lastKey: Key): (r: Result<Limits, LimitsError>)
    ensures r.Success? ==> r.value.Valid()
    ensures r.Success? <==> firstKey <= lastKey && 0 < maxOperations && 0 < maxFrames
  {
    if firstKey > lastKey then Failure(EmptyMatchKeySpace)
    else if maxOperations == 0 then Failure(ZeroOperationCapacity)
    else if maxFrames == 0 then Failure(ZeroWriteCapacity)
    else Success(Limits(maxOperations, maxRetained, maxFrames, maxWriteRetained, firstKey, lastKey))
  }

  datatype ReserveError =
    | AdmissionClosed | DeadlineElapsed | OperationCapacity | RetainedByteCapacity
    | WriteCapacity | MatchKeyExhausted | IdentityExhausted | OwnerPoisoned

  /** Capacity held by one permit or accepted operation. */
  datatype Reservation = Reservation(retained: U64, writeRetained: U64, key: Key)

  datatype LedgerState = LedgerState(
    limits: Limits,
    operations: nat, permits: nat, retained: nat, frames: nat, writeRetained: nat,
    keys: set<Key>, nextKey: Key, poisoned: bool)

  function InitialLedger(limits: Limits): LedgerState {
    LedgerState(limits, 0, 0, 0, 0, 0, {}, limits.firstKey, false)
  }

  /** Every operation of the ledger owns exactly one key. */
  ghost predicate Keyed(l: LedgerState) {
    && l.limits.Valid() && l.limits.InSpace(l.nextKey)
    && |l.keys| == l.operations <= l.limits.maxOperations
  }

  /** Facts one ledger maintains without knowing who holds its capacity. */
  ghost predicate WellFormed(l: LedgerState) {
    && Keyed(l)
    && (forall k :: k in l.keys ==> l.limits.InSpace(k))
    && l.retained <= l.limits.maxRetained
    && l.frames <= l.limits.maxFrames
    && l.writeRetained <= l.limits.maxWriteRetained
  }

  // --------------------------------------------------------------- key allocation

  /** First free key among `attempts` consecutive candidates. */
  function FirstFree(limits: Limits, keys: set<Key>, candidate: Key, attempts: nat): (r: Option<Key>)
    requires limits.Valid() && limits.InSpace(candidate)
    ensures r.Some? ==> r.value !in keys && limits.InSpace(r.value)
    decreases attempts
  {
    if attempts == 0 then None
    else if candidate !in keys then Some(candidate)
    else FirstFree(limits, keys, limits.NextKey(candidate), attempts - 1)
  }

  lemma {:induction false} ExhaustedProbe(limits: Limits, keys: set<Key>, from: Key, j: nat, attempts: nat)
    requires limits.Valid() && limits.InSpace(from) && attempts <= limits.Capacity() && j < attempts
    requires FirstFree(limits, keys, from, attempts).None?
    ensures limits.NthKey(from, j) in keys
    decreases j
  {
    if j > 0 {
      ExhaustedProbe(limits, keys, limits.NextKey(from), j - 1, attempts - 1);
      assert limits.NthKey(limits.NextKey(from), j - 1) == limits.NthKey(from, j);
    }
  }

  /** The `n` consecutive candidates from `from` are `n` different keys. */
  lemma {:induction false} CandidatesDistinct(limits: Limits, from: Key, n: nat, s: set<Key>)
    requires limits.Valid() && limits.InSpace(from) && n <= limits.Capacity()
    requires s == set j | 0 <= j < n :: limits.NthKey(from, j)
    ensures |s| == n
  {
    if n > 0 {
      var rest := set j | 0 <= j < n - 1 :: limits.NthKey(from, j);
      var last := limits.NthKey(from, n - 1);
      CandidatesDistinct(limits, from, n - 1, rest);
      assert s == rest + {last};
      assert last !in rest;
    }
  }

  lemma SubsetBound(a: set<Key>, b: set<Key>)
    requires a <= b
    ensures |a| <= |b|
    ensures |a| == |b| ==> a == b
  {
    assert b == a + (b - a);
  }

  /** Probing one more candidate than there are active keys misses a free key only when every
      key of the space is active. */
  lemma KeyAllocationPigeonhole(limits: Limits, keys: set<Key>, from: Key)
    requires limits.Valid() && limits.InSpace(from)
    requires forall k :: k in keys ==> limits.InSpace(k)
    ensures FirstFree(limits, keys, from, |keys| + 1).None?
       <==> forall k: Key :: limits.InSpace(k) ==> k in keys
    ensures FirstFree(limits, keys, from, |keys| + 1).None? <==> |keys| == limits.Capacity()
  {
    var space := set j | 0 <= j < limits.Capacity() :: limits.NthKey(limits.firstKey, j);
    CandidatesDistinct(limits, limits.firstKey, limits.Capacity(), space);
    forall k: Key | limits.InSpace(k) ensures k in space {
      assert limits.NthKey(limits.firstKey, k - limits.firstKey) == k;
    }
    SubsetBound(keys, space);
    if FirstFree(limits, keys, from, |keys| + 1).None? && |keys| < limits.Capacity() {
      var n := |keys| + 1;
      var seen := set j | 0 <= j < n :: limits.NthKey(from, j);
      CandidatesDistinct(limits, from, n, seen);
      forall k | k in seen ensures k in keys {
        var j :| 0 <= j < n && k == limits.NthKey(from, j);
        ExhaustedProbe(limits, keys, from, j, n);
      }
      SubsetBound(seen, keys);
      assert false;
    }
  }

  // --------------------------------------------------------------- ledger operations

  function Granted(l: LedgerState, r: Reservation): LedgerState
    requires l.limits.Valid() && l.limits.InSpace(r.key)
  {
    l.(operations := l.operations + 1, permits := l.permits + 1,
       retained := l.retained + r.retained, frames := l.frames + 1,
       writeRetained := l.writeRetained + r.writeRetained,
       keys := l.keys + {r.key}, nextKey := l.limits.NextKey(r.key))
  }

  function ReserveIn(l: LedgerState, retained: U64, writeRetained: U64)
    : (r: (LedgerState, Result<Reservation, ReserveError>))
    requires l.limits.Valid() && l.limits.InSpace(l.nextKey)
    ensures r.1.Failure? ==> r.0 == l
  {
    if l.poisoned then (l, Failure(OwnerPoisoned))
    else if l.operations == l.limits.maxOperations then (l, Failure(OperationCapacity))
    else if l.retained + retained > l.limits.maxRetained then (l, Failure(RetainedByteCapacity))
    else if l.frames == l.limits.maxFrames then (l, Failure(WriteCapacity))
    else if l.writeRetained + writeRetained > l.limits.maxWriteRetained then (l, Failure(WriteCapacity))
    else
      var key := FirstFree(l.limits, l.keys, l.nextKey, |l.keys| + 1);
      if key.None? then (l, Failure(MatchKeyExhausted))
      else
        (Granted(l, Reservation(retained, writeRetained, key.value)),
         Success(Reservation(retained, writeRetained, key.value)))
  }

  /** Accepting a frame turns its permit into an operation and shrinks it to measured size. */
  function CommitPermit(l: LedgerState, r: Reservation, actual: nat): LedgerState
  {
    if l.permits < 1 || r.writeRetained < actual || l.writeRetained < r.writeRetained - actual
    then l.(poisoned := true)
    else l.(permits := l.permits - 1, writeRetained := l.writeRetained - (r.writeRetained - actual))
  }

  /** The counters cover one more release of this reservation. */
  predicate CountersCover(l: LedgerState, r: Reservation, writeHeld: bool, permit: bool) {
    && 1 <= l.operations && r.retained <= l.retained
    && (permit ==> 1 <= l.permits)
    && (writeHeld ==> 1 <= l.frames && r.writeRetained <= l.writeRetained)
  }

  predicate CanRelease(l: LedgerState, r: Reservation, writeHeld: bool, permit: bool) {
    CountersCover(l, r, writeHeld, permit) && r.key in l.keys
  }

  function Released(l: LedgerState, r: Reservation, writeHeld: bool, permit: bool): LedgerState
    requires CountersCover(l, r, writeHeld, permit)
  {
    l.(operations := l.operations - 1, retained := l.retained - r.retained,
       permits := if permit then l.permits - 1 else l.permits,
       frames := if writeHeld then l.frames - 1 else l.frames,
       writeRetained := if writeHeld then l.writeRetained - r.writeRetained else l.writeRetained,
       keys := l.keys - {r.key})
  }

  function Release(l: LedgerState, r: Reservation, writeHeld: bool, permit: bool): LedgerState
  {
    if CanRelease(l, r, writeHeld, permit) then Released(l, r, writeHeld, permit)
    else l.(poisoned := true)
  }

  function ReleaseWrite(l: LedgerState, writeRetained: nat): LedgerState
  {
    if l.frames < 1 || l.writeRetained < writeRetained then l.(poisoned := true)
    else l.(frames := l.frames - 1, writeRetained := l.writeRetained - writeRetained)
  }

  /** No operation breaks the facts the ledger maintains on its own. */
  lemma ReserveKeeps(l: LedgerState, retained: U64, writeRetained: U64)
    requires WellFormed(l)
    ensures WellFormed(ReserveIn(l, retained, writeRetained).0)
  {
  }

  lemma CommitKeeps(l: LedgerState, r: Reservation, actual: nat)
    requires WellFormed(l)
    ensures WellFormed(CommitPermit(l, r, actual))
  {
  }

  lemma ReleaseKeeps(l: LedgerState, r: Reservation, writeHeld: bool, permit: bool)
    requires WellFormed(l)
    ensures WellFormed(Release(l, r, writeHeld, permit))
  {
  }

  lemma ReleaseWriteKeeps(l: LedgerState, writeRetained: nat)
    requires WellFormed(l)
    ensures WellFormed(ReleaseWrite(l, writeRetained))
  {
  }

  // --------------------------------------------------------------- conservation

  /** One holder of capacity: a live permit, or an accepted operation that may still hold its frame. */
  datatype Claim = Claim(reservation: Reservation, held: bool, permit: bool)

  datatype Totals = Totals(operations: nat, permits: nat, retained: nat, frames: nat, writeRetained: nat)

  function Add(a: Totals, c: Claim): Totals {
    Totals(a.operations + 1, a.permits + (if c.permit then 1 else 0),
           a.retained + c.reservation.retained,
           a.frames + (if c.held then 1 else 0),
           a.writeRetained + (if c.held then c.reservation.writeRetained else 0))
  }

  function Sum(a: Totals, b: Totals): Totals {
    Totals(a.operations + b.operations, a.permits + b.permits, a.retained + b.retained,
           a.frames + b.frames, a.writeRetained + b.writeRetained)
  }

  function TotalsOf(claims: seq<Claim>): Totals {
    if claims == [] then Totals(0, 0, 0, 0, 0)
    else Add(TotalsOf(claims[..|claims| - 1]), claims[|claims| - 1])
  }

  function ClaimedKeys(claims: seq<Claim>): set<Key> {
    set i | 0 <= i < |claims| :: claims[i].reservation.key
  }

  ghost predicate DistinctKeys(claims: seq<Claim>) {
    forall i, j :: 0 <= i < j < |claims| ==> claims[i].reservation.key != claims[j].reservation.key
  }

  /** The ledger's counters are exactly the sums over its holders. */
  ghost predicate Balanced(l: LedgerState, claims: seq<Claim>) {
    && WellFormed(l) && !l.poisoned
    && TotalsOf(claims) == Totals(l.operations, l.permits, l.retained, l.frames, l.writeRetained)
    && ClaimedKeys(claims) == l.keys
    && DistinctKeys(claims)
  }

  lemma TotalsSnoc(a: seq<Claim>, c: Claim)
    ensures TotalsOf(a + [c]) == Add(TotalsOf(a), c)
  {
    assert (a + [c])[..|a|] == a;
  }

  lemma {:induction false} TotalsConcat(a: seq<Claim>, b: seq<Claim>)
    ensures TotalsOf(a + b) == Sum(TotalsOf(a), TotalsOf(b))
  {
    hide TotalsOf, Add, Sum;
    if b == [] {
      SumNothing(a);
      assert a + [] == a;
    } else {
      var front, last := b[..|b| - 1], b[|b| - 1];
      TotalsConcat(a, front);
      TotalsSnoc(a + front, last);
      TotalsSnoc(front, last);
      assert a + front + [last] == a + b;
      assert front + [last] == b;
      SumAdds(TotalsOf(a), TotalsOf(front), last);
    }
  }

  lemma SumNothing(a: seq<Claim>)
    ensures Sum(TotalsOf(a), TotalsOf([])) == TotalsOf(a)
  {
  }

  lemma SumAdds(a: Totals, b: Totals, c: Claim)
    ensures Add(Sum(a, b), c) == Sum(a, Add(b, c))
  {
  }

  lemma TotalsAt(claims: seq<Claim>, i: nat, c: Claim)
    requires i < |claims|
    ensures TotalsOf(claims) == Add(TotalsOf(RemoveAt(claims, i)), claims[i])
    ensures TotalsOf(claims[i := c]) == Add(TotalsOf(RemoveAt(claims, i)), c)
  {
    hide Add, TotalsOf;
    TotalsAround(claims[..i], claims[i], claims[i + 1..]);
    TotalsAround(claims[..i], c, claims[i + 1..]);
    assert claims == claims[..i] + [claims[i]] + claims[i + 1..];
    assert claims[i := c] == claims[..i] + [c] + claims[i + 1..];
  }

  lemma TotalsAround(before: seq<Claim>, c: Claim, after: seq<Claim>)
    ensures TotalsOf(before + [c] + after) == Add(TotalsOf(before + after), c)
  {
    hide TotalsOf;
    TotalsConcat(before, after);
    TotalsConcat(before + [c], after);
    TotalsSnoc(before, c);
  }

  lemma KeysExtend(claims: seq<Claim>, c: Claim)
    requires DistinctKeys(claims) && c.reservation.key !in ClaimedKeys(claims)
    ensures ClaimedKeys(claims + [c]) == ClaimedKeys(claims) + {c.reservation.key}
    ensures DistinctKeys(claims + [c])
  {
    var longer := claims + [c];
    forall k | k in ClaimedKeys(claims) ensures k in ClaimedKeys(longer) {
      var i :| 0 <= i < |claims| && claims[i].reservation.key == k;
      assert longer[i].reservation.key == k;
    }
    forall k | k in ClaimedKeys(longer) ensures k in ClaimedKeys(claims) + {c.reservation.key} {
      var i :| 0 <= i < |longer| && longer[i].reservation.key == k;
      assert i < |claims| ==> claims[i].reservation.key == k;
    }
    assert longer[|claims|] == c;
    forall i, j | 0 <= i < j < |longer|
      ensures longer[i].reservation.key != longer[j].reservation.key
    {
      assert claims[i].reservation.key in ClaimedKeys(claims);
    }
  }

  lemma GrantBalanced(l: LedgerState, claims: seq<Claim>, r: Reservation)
    requires Balanced(l, claims) && l.limits.InSpace(r.key) && r.key !in l.keys
    requires WellFormed(Granted(l, r))
    ensures Balanced(Granted(l, r), claims + [Claim(r, true, true)])
  {
    var c := Claim(r, true, true);
    KeysExtend(claims, c);
    TotalsSnoc(claims, c);
  }

  lemma ReserveBalanced(l: LedgerState, claims: seq<Claim>, retained: U64, writeRetained: U64)
    requires Balanced(l, claims)
    ensures ReserveIn(l, retained, writeRetained).1.Success? ==>
      Balanced(ReserveIn(l, retained, writeRetained).0,
               claims + [Claim(ReserveIn(l, retained, writeRetained).1.value, true, true)])
  {
    var r := ReserveIn(l, retained, writeRetained).1;
    if r.Success? {
      ReserveKeeps(l, retained, writeRetained);
      GrantBalanced(l, claims, r.value);
    }
  }

  /** Removing one holder and releasing what it held keeps the ledger balanced, so no release
      in any order can underflow. */
  lemma ReleaseBalanced(l: LedgerState, claims: seq<Claim>, i: nat)
    requires Balanced(l, claims) && i < |claims|
    ensures CanRelease(l, claims[i].reservation, claims[i].held, claims[i].permit)
    ensures Balanced(Release(l, claims[i].reservation, claims[i].held, claims[i].permit), RemoveAt(claims, i))
  {
    hide TotalsOf;
    ReleaseKeeps(l, claims[i].reservation, claims[i].held, claims[i].permit);
    TotalsAt(claims, i, claims[i]);
    KeysShrink(claims, i);
  }

  lemma KeysShrink(claims: seq<Claim>, i: nat)
    requires DistinctKeys(claims) && i < |claims|
    ensures claims[i].reservation.key in ClaimedKeys(claims)
    ensures ClaimedKeys(RemoveAt(claims, i)) == ClaimedKeys(claims) - {claims[i].reservation.key}
    ensures DistinctKeys(RemoveAt(claims, i))
  {
    var rest := RemoveAt(claims, i);
    var key := claims[i].reservation.key;
    assert key in ClaimedKeys(claims);
    assert ClaimedKeys(rest) == ClaimedKeys(claims) - {key} by {
      forall k | k in ClaimedKeys(claims) - {key} ensures k in ClaimedKeys(rest) {
        var j :| 0 <= j < |claims| && claims[j].reservation.key == k;
        assert rest[if j < i then j else j - 1].reservation.key == k;
      }
      forall j | 0 <= j < |rest| ensures rest[j].reservation.key in ClaimedKeys(claims) - {key} {
        assert claims[if j < i then j else j + 1].reservation.key in ClaimedKeys(claims);
      }
    }
  }

  /** Replacing a holder by a smaller one with the same key. */
  lemma ShrinkBalanced(l: LedgerState, claims: seq<Claim>, i: nat, c: Claim, after: LedgerState)
    requires Balanced(l, claims) && i < |claims|
    requires WellFormed(after) && !after.poisoned
    requires c.reservation.key == claims[i].reservation.key
    requires after.keys == l.keys
    requires TotalsOf(claims[i := c]) == Totals(after.operations, after.permits, after.retained,
        after.frames, after.writeRetained)
    ensures Balanced(after, claims[i := c])
  {
    assert ClaimedKeys(claims[i := c]) == ClaimedKeys(claims) by {
      forall k | k in ClaimedKeys(claims) ensures k in ClaimedKeys(claims[i := c]) {
        var j :| 0 <= j < |claims| && claims[j].reservation.key == k;
        assert claims[i := c][j].reservation.key == k;
      }
      forall k | k in ClaimedKeys(claims[i := c]) ensures k in ClaimedKeys(claims) {
        var j :| 0 <= j < |claims| && claims[i := c][j].reservation.key == k;
        assert claims[j].reservation.key == k;
      }
    }
  }

  lemma CommitBalanced(l: LedgerState, claims: seq<Claim>, i: nat, actual: nat)
    requires Balanced(l, claims) && i < |claims| && claims[i].permit && claims[i].held
    requires actual <= claims[i].reservation.writeRetained
    ensures Balanced(CommitPermit(l, claims[i].reservation, actual),
                     claims[i := Claim(claims[i].reservation.(writeRetained := actual), true, false)])
  {
    var c := Claim(claims[i].reservation.(writeRetained := actual), true, false);
    CommitKeeps(l, claims[i].reservation, actual);
    TotalsAt(claims, i, c);
    ShrinkBalanced(l, claims, i, c, CommitPermit(l, claims[i].reservation, actual));
  }

  lemma ReleaseWriteBalanced(l: LedgerState, claims: seq<Claim>, i: nat)
    requires Balanced(l, claims) && i < |claims| && claims[i].held
    ensures Balanced(ReleaseWrite(l, claims[i].reservation.writeRetained), claims[i := claims[i].(held := false)])
  {
    var c := claims[i].(held := false);
    ReleaseWriteKeeps(l, claims[i].reservation.writeRetained);
    TotalsAt(claims, i, c);
    ShrinkBalanced(l, claims, i, c, ReleaseWrite(l, claims[i].reservation.writeRetained));
  }

  // --------------------------------------------------------------- the mutable ledger

  class ReservationLedger {
    const limits: Limits
    var operations: nat
    var permits: nat
    var retained: nat
    var frames: nat
    var writeRetained: nat
    const activeKeys: ActiveKeySet
    var nextKey: Key
    var poisoned: bool

    ghost function Model(): LedgerState
      reads this, activeKeys, activeKeys.slots
    {
      LedgerState(limits, operations, permits, retained, frames, writeRetained,
                  activeKeys.keys, nextKey, poisoned)
    }

    ghost predicate Valid()
      reads this, activeKeys, activeKeys.slots
    {
      && activeKeys.Valid()
      && limits.maxOperations < activeKeys.slots.Length
      && Keyed(Model())
    }

    constructor (limits: Limits)
      requires limits.Valid() && limits.maxOperations < CapacityFor(limits.maxOperations)
      ensures Valid() && Model() == InitialLedger(limits)
      ensures fresh(activeKeys) && fresh(activeKeys.slots)
    {
      this.limits := limits;
      operations, permits, retained, frames, writeRetained := 0, 0, 0, 0, 0;
      activeKeys := new ActiveKeySet(limits.maxOperations);
      nextKey := limits.firstKey;
      poisoned := false;
    }

    method AllocateKey() returns (r: Result<Key, ReserveError>)
      requires Valid()
      modifies this`nextKey
      ensures Valid()
      ensures r == match FirstFree(limits, activeKeys.keys, old(nextKey), |activeKeys.keys| + 1)
                   case Some(key) => Success(key)
                   case None => Failure(MatchKeyExhausted)
      ensures nextKey == if r.Success? then limits.NextKey(r.value) else old(nextKey)
    {
      var attempts := activeKeys.len + 1;
      var candidate := nextKey;
      for attempt := 0 to attempts
        invariant limits.InSpace(candidate) && nextKey == old(nextKey)
        invariant FirstFree(limits, activeKeys.keys, nextKey, attempts)
               == FirstFree(limits, activeKeys.keys, candidate, attempts - attempt)
      {
        var active := activeKeys.Contains(candidate);
        if !active {
          nextKey := limits.NextKey(candidate);
          return Success(candidate);
        }
        candidate := limits.NextKey(candidate);
      }
      return Failure(MatchKeyExhausted);
    }

    method Reserve(bytes: U64, writeBytes: U64) returns (r: Result<Reservation, ReserveError>)
      requires Valid()
      modifies this, activeKeys, activeKeys.slots
      ensures Valid()
      ensures (Model(), r) == ReserveIn(old(Model()), bytes, writeBytes)
    {
      hide NoGaps, Distinct, KeysOf, FirstFree;
      if poisoned {
        return Failure(OwnerPoisoned);
      }
      if operations == limits.maxOperations {
        return Failure(OperationCapacity);
      }
      var nextRetained := CheckedAdd(retained, bytes);
      if nextRetained.None? || limits.maxRetained < nextRetained.value {
        return Failure(RetainedByteCapacity);
      }
      if frames == limits.maxFrames {
        return Failure(WriteCapacity);
      }
      var nextWrite := CheckedAdd(writeRetained, writeBytes);
      if nextWrite.None? || limits.maxWriteRetained < nextWrite.value {
        return Failure(WriteCapacity);
      }
      var chosen := AllocateKey();
      if chosen.Failure? {
        return Failure(chosen.error);
      }
      var inserted := activeKeys.InsertKey(chosen.value);
      if !inserted {
        // A key the allocator found free is never refused.
        assert false;
      }
      operations, permits := operations + 1, permits + 1;
      retained, frames, writeRetained := nextRetained.value, frames + 1, nextWrite.value;
      r := Success(Reservation(bytes, writeBytes, chosen.value));
    }

    method Commit(reservation: Reservation, actual: nat)
      requires Valid()
      modifies this
      ensures Valid() && Model() == CommitPermit(old(Model()), reservation, actual)
    {
      var left := CheckedSub(permits, 1);
      var unused := CheckedSub(reservation.writeRetained, actual);
      if left.None? || unused.None? {
        poisoned := true;
        return;
      }
      var remaining := CheckedSub(writeRetained, unused.value);
      if remaining.None? {
        poisoned := true;
        return;
      }
      permits, writeRetained := left.value, remaining.value;
    }

    predicate Covers(reservation: Reservation, writeHeld: bool, releasePermit: bool)
      reads this
    {
      && 1 <= operations && reservation.retained <= retained
      && (releasePermit ==> 1 <= permits)
      && (writeHeld ==> 1 <= frames && reservation.writeRetained <= writeRetained)
    }

    method Subtract(reservation: Reservation, writeHeld: bool, releasePermit: bool)
      requires Covers(reservation, writeHeld, releasePermit)
      requires CountersCover(Model(), reservation, writeHeld, releasePermit)
      modifies this
      ensures Model() == Released(old(Model()), reservation, writeHeld, releasePermit).(keys := old(activeKeys.keys))
    {
      operations, retained := operations - 1, retained - reservation.retained;
      if releasePermit {
        permits := permits - 1;
      }
      if writeHeld {
        frames, writeRetained := frames - 1, writeRetained - reservation.writeRetained;
      }
    }

    method ReleaseAll(reservation: Reservation, writeHeld: bool, releasePermit: bool)
      requires Valid()
      modifies this, activeKeys, activeKeys.slots
      ensures Valid() && Model() == Release(old(Model()), reservation, writeHeld, releasePermit)
    {
      hide NoGaps, Distinct, KeysOf;
      if !Covers(reservation, writeHeld, releasePermit) {
        poisoned := true;
        return;
      }
      var removed := activeKeys.Remove(reservation.key);
      if !removed {
        poisoned := true;
        return;
      }
      Subtract(reservation, writeHeld, releasePermit);
    }

    method ReleaseFrame(bytes: nat)
      requires Valid()
      modifies this
      ensures Valid() && Model() == ReleaseWrite(old(Model()), bytes)
    {
      if frames < 1 || writeRetained < bytes {
        poisoned := true;
        return;
      }
      frames, writeRetained := frames - 1, writeRetained - bytes;
    }
  }
}
