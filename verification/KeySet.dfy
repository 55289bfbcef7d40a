/** Open-addressed membership of the active match keys: linear probing, and reinsertion of
    the rest of a cluster when one of its keys is removed. */
module KeySet {
  import opened Primitives

  type Key = U32
  type Table = seq<Option<Key>>

  /** Next power of two at or above `n`, when it fits the machine word. */
  function NextPowerOfTwo(n: nat, p: nat): (r: Option<nat>)
    requires 1 <= p <= U64_MAX && (p == 1 || p / 2 < n)
    ensures r.Some? ==> n <= r.value <= U64_MAX
    ensures r.Some? && 1 < r.value ==> r.value / 2 < n
    decreases U64_MAX - p
  {
    if n <= p then Some(p)
    else if 2 * p <= U64_MAX then NextPowerOfTwo(n, 2 * p)
    else None
  }

  function CapacityFor(maxKeys: nat): (capacity: nat)
    ensures 1 <= capacity
  {
    var doubled := if 2 * maxKeys <= U64_MAX then NextPowerOfTwo(2 * maxKeys, 1) else None;
    var capacity := if doubled.Some? then doubled.value else maxKeys;
    if capacity < 1 then 1 else capacity
  }

  function Home(key: Key, n: nat): (r: nat)
    requires 0 < n
    ensures r < n
  {
    ((key * 0x9e37_79b1) % U32_MODULUS) % n
  }

  function Next(index: nat, n: nat): (r: nat)
    requires index < n
    ensures r < n
  {
    if index + 1 == n then 0 else index + 1
  }

  /** Steps a probe takes to walk cyclically from `a` to `b`. */
  function Dist(a: nat, b: nat, n: nat): (d: nat)
    requires a < n && b < n
    ensures d < n
  {
    if a <= b then b - a else b + n - a
  }

  /** The slot `d` steps after `a`. */
  function At(a: nat, d: nat, n: nat): (r: nat)
    requires a < n && d < n
    ensures r < n && Dist(a, r, n) == d
  {
    if a + d < n then a + d else a + d - n
  }

  function KeysOf(t: Table): set<Key> {
    set i | 0 <= i < |t| && t[i].Some? :: t[i].value
  }

  ghost predicate Distinct(t: Table) {
    forall i, j :: 0 <= i < j < |t| && t[i].Some? && t[j].Some? ==> t[i].value != t[j].value
  }

  /** The empty slot `q` lies between the home of the key in `p` and `p` itself. */
  predicate Gap(t: Table, p: nat, q: nat)
    requires p < |t| && q < |t|
  {
    t[p].Some? && t[q].None?
    && Dist(Home(t[p].value, |t|), q, |t|) < Dist(Home(t[p].value, |t|), p, |t|)
  }

  /** Every slot between a key's home and the key is occupied. */
  ghost predicate NoGaps(t: Table) {
    forall p, q :: 0 <= p < |t| && 0 <= q < |t| ==> !Gap(t, p, q)
  }

  /** How far from the key's home a probe that ended in `r` looked. */
  function Reach(t: Table, key: Key, r: Option<nat>): nat
    requires 0 < |t| && (r.Some? ==> r.value < |t|)
  {
    if r.Some? then Dist(Home(key, |t|), r.value, |t|) else |t|
  }

  /** First slot at or after `d` steps from the key's home that is empty or holds the key. */
  function Probe(t: Table, key: Key, d: nat): (r: Option<nat>)
    requires 0 < |t| && d <= |t|
    ensures r.Some? ==> r.value < |t| && (t[r.value] == None || t[r.value] == Some(key))
    ensures r.Some? ==> d <= Dist(Home(key, |t|), r.value, |t|)
    ensures forall q :: 0 <= q < |t| && d <= Dist(Home(key, |t|), q, |t|) < Reach(t, key, r)
              ==> t[q].Some? && t[q].value != key
    decreases |t| - d
  {
    if d == |t| then None
    else
      var index := At(Home(key, |t|), d, |t|);
      if t[index] == Some(key) || t[index].None? then Some(index)
      else Probe(t, key, d + 1)
  }

  /** What insertion does to any table, well formed or not. */
  function Placed(t: Table, key: Key): Table
    requires 0 < |t|
  {
    var slot := Probe(t, key, 0);
    if slot.Some? && t[slot.value].None? then t[slot.value := Some(key)] else t
  }

  lemma NoGapBetween(t: Table, p: nat, q: nat)
    requires NoGaps(t) && p < |t| && q < |t|
    ensures !Gap(t, p, q)
  {
  }

  lemma ProbeSees(t: Table, key: Key, p: nat)
    requires p < |t| && t[p] == Some(key)
    ensures Probe(t, key, 0).Some?
    ensures Dist(Home(key, |t|), Probe(t, key, 0).value, |t|) <= Dist(Home(key, |t|), p, |t|)
  {
    hide Probe;
    assert !(Dist(Home(key, |t|), p, |t|) < Reach(t, key, Probe(t, key, 0)));
  }

  /** In a gap-free table probing decides membership. */
  lemma ProbeDecidesMembership(t: Table, key: Key)
    requires 0 < |t| && NoGaps(t)
    ensures key in KeysOf(t) <==> Probe(t, key, 0).Some? && t[Probe(t, key, 0).value] == Some(key)
  {
    hide NoGaps;
    var r := Probe(t, key, 0);
    if key in KeysOf(t) {
      var p :| 0 <= p < |t| && t[p] == Some(key);
      ProbeSees(t, key, p);
      NoGapBetween(t, p, r.value);
      hide Probe;
      if r.value != p { DistInjective(Home(key, |t|), p, r.value, |t|); }
    }
  }

  lemma DistInjective(a: nat, p: nat, q: nat, n: nat)
    requires a < n && p < n && q < n && p != q
    ensures Dist(a, p, n) != Dist(a, q, n)
  {
  }

  /** A table without an empty slot holds as many keys as it has slots. */
  lemma {:induction false} FullTableCount(t: Table)
    requires Distinct(t) && forall i :: 0 <= i < |t| ==> t[i].Some?
    ensures |KeysOf(t)| == |t|
  {
    if |t| > 0 {
      FullTableCount(t[..|t| - 1]);
      LastKey(t);
      hide KeysOf, Distinct;
    }
  }

  lemma LastKey(t: Table)
    requires Distinct(t) && t != [] && t[|t| - 1].Some?
    ensures var front, key := t[..|t| - 1], t[|t| - 1].value; KeysOf(t) == KeysOf(front) + {key} && key !in KeysOf(front)
  {
    var front, key := t[..|t| - 1], t[|t| - 1].value;
    forall k | k in KeysOf(t) ensures k in KeysOf(front) + {key} {
      var i :| 0 <= i < |t| && t[i] == Some(k);
      if i < |t| - 1 { assert front[i] == Some(k); }
    }
    forall k | k in KeysOf(front) ensures k in KeysOf(t) && k != key {
      var i :| 0 <= i < |front| && front[i] == Some(k);
      assert t[i] == Some(k);
    }
    assert t[|t| - 1] == Some(key);
  }

  /** Filling the first empty slot on a key's path leaves the table gap-free. */
  lemma PlacedKeepsPaths(t: Table, key: Key, slot: nat)
    requires 0 < |t| && NoGaps(t) && Distinct(t) && key !in KeysOf(t)
    requires Probe(t, key, 0) == Some(slot) && t[slot].None?
    ensures NoGaps(t[slot := Some(key)]) && Distinct(t[slot := Some(key)])
    ensures KeysOf(t[slot := Some(key)]) == KeysOf(t) + {key}
  {
    var u := t[slot := Some(key)];
    forall p, q | 0 <= p < |t| && 0 <= q < |t| ensures !Gap(u, p, q) {
      assert !Gap(t, p, q);
    }
    forall k | k in KeysOf(u) ensures k in KeysOf(t) + {key} {
      var i :| 0 <= i < |u| && u[i] == Some(k);
      assert i == slot || t[i] == Some(k);
    }
    forall k | k in KeysOf(t) ensures k in KeysOf(u) {
      var i :| 0 <= i < |t| && t[i] == Some(k);
      assert u[i] == Some(k);
    }
    assert u[slot] == Some(key);
  }

  /** Insertion into a gap-free table adds the key exactly when it was absent and room was left. */
  lemma PlacedAddsOneKey(t: Table, key: Key)
    requires 0 < |t| && NoGaps(t) && Distinct(t)
    ensures NoGaps(Placed(t, key)) && Distinct(Placed(t, key))
    ensures KeysOf(Placed(t, key)) == if |KeysOf(t)| < |t| then KeysOf(t) + {key} else KeysOf(t)
    ensures Placed(t, key) != t <==> key !in KeysOf(t) && |KeysOf(t)| < |t|
  {
    ProbeDecidesMembership(t, key);
    var r := Probe(t, key, 0);
    if r.None? {
      FullTableCount(t);
    } else if t[r.value].None? {
      SpareSlotCount(t, r.value);
      PlacedKeepsPaths(t, key, r.value);
    }
  }

  /** An empty slot means fewer keys than slots. */
  lemma {:induction false} SpareSlotCount(t: Table, e: nat)
    requires e < |t| && t[e].None?
    ensures |KeysOf(t)| < |t|
  {
    KeyCountBound(t[..e] + t[e + 1..]);
    assert KeysOf(t) == KeysOf(t[..e] + t[e + 1..]) by {
      var u := t[..e] + t[e + 1..];
      forall k | k in KeysOf(t) ensures k in KeysOf(u) {
        var i :| 0 <= i < |t| && t[i] == Some(k);
        assert u[if i < e then i else i - 1] == Some(k);
      }
      forall k | k in KeysOf(u) ensures k in KeysOf(t) {
        var i :| 0 <= i < |u| && u[i] == Some(k);
        assert t[if i < e then i else i + 1] == Some(k);
      }
    }
  }

  lemma {:induction false} KeyCountBound(t: Table)
    ensures |KeysOf(t)| <= |t|
  {
    if |t| > 0 {
      var last := |t| - 1;
      KeyCountBound(t[..last]);
      var tail := if t[last].Some? then {t[last].value} else {};
      assert KeysOf(t) == KeysOf(t[..last]) + tail by {
        forall k | k in KeysOf(t) ensures k in KeysOf(t[..last]) + tail {
          var i :| 0 <= i < |t| && t[i] == Some(k);
          if i < last { assert t[..last][i] == Some(k); }
        }
        forall k | k in KeysOf(t[..last]) + tail ensures k in KeysOf(t) {
          if k in KeysOf(t[..last]) {
            var i :| 0 <= i < last && t[..last][i] == Some(k);
            assert t[i] == Some(k);
          } else {
            assert t[last] == Some(k);
          }
        }
      }
    }
  }

  /** Removal in progress: `hole` was cleared, the slots `c..len` steps after it still await
      reinsertion, and only their keys may have an empty slot behind them. */
  ghost predicate Reinserting(t: Table, hole: nat, c: nat, len: nat) {
    && hole < |t| && 1 <= c <= len < |t|
    && Distinct(t)
    && t[At(hole, len, |t|)].None?
    && (forall p :: 0 <= p < |t| && c <= Dist(hole, p, |t|) < len ==> t[p].Some?)
    && (forall p, q :: 0 <= p < |t| && 0 <= q < |t| && Gap(t, p, q)
          ==> Dist(hole, q, |t|) < c <= Dist(hole, p, |t|) < len)
  }

  /** Length of the cluster after `hole`: steps to the first empty slot. */
  lemma {:induction false} ClusterLength(t: Table, hole: nat, d: nat) returns (len: nat)
    requires hole < |t| && 1 <= d < |t|
    requires exists e :: 0 <= e < |t| && t[e].None? && d <= Dist(hole, e, |t|)
    ensures d <= len < |t| && t[At(hole, len, |t|)].None?
    ensures forall p :: 0 <= p < |t| && d <= Dist(hole, p, |t|) < len ==> t[p].Some?
    decreases |t| - d
  {
    var here := At(hole, d, |t|);
    if t[here].None? {
      len := d;
    } else {
      var e :| 0 <= e < |t| && t[e].None? && d <= Dist(hole, e, |t|);
      assert Dist(hole, e, |t|) != d;
      len := ClusterLength(t, hole, d + 1);
    }
  }

  /** Moving a key from `from` to an empty slot changes no membership. */
  lemma MovedKeys(t: Table, from: nat, to: nat)
    requires from < |t| && to < |t| && t[from].Some? && Distinct(t)
    requires to == from || t[to].None?
    ensures KeysOf(t[from := None]) == KeysOf(t) - {t[from].value}
    ensures KeysOf(t[from := None][to := t[from]]) == KeysOf(t)
    ensures Distinct(t[from := None][to := t[from]])
    ensures t[from].value in KeysOf(t)
  {
    var u := t[from := None];
    var v := u[to := t[from]];
    forall k | k in KeysOf(t) ensures k in KeysOf(v) && (k != t[from].value ==> k in KeysOf(u)) {
      var i :| 0 <= i < |t| && t[i] == Some(k);
      assert v[if i == from then to else i] == Some(k);
      assert i != from ==> u[i] == Some(k);
    }
    forall k | k in KeysOf(v) ensures k in KeysOf(t) {
      var i :| 0 <= i < |t| && v[i] == Some(k);
      assert t[if i == to then from else i] == Some(k);
    }
    forall k | k in KeysOf(u) ensures k in KeysOf(t) - {t[from].value} {
      var i :| 0 <= i < |t| && u[i] == Some(k);
      assert t[i] == Some(k);
    }
  }

  lemma GapAfterClearing(t: Table, hole: nat, len: nat, p: nat, q: nat)
    requires hole < |t| && NoGaps(t) && 1 <= len < |t| && t[At(hole, len, |t|)].None?
    requires p < |t| && q < |t| && Gap(t[hole := None], p, q)
    ensures Dist(hole, q, |t|) < 1 <= Dist(hole, p, |t|) < len
  {
    assert !Gap(t, p, q) && !Gap(t, p, At(hole, len, |t|));
  }

  /** Clearing one key of a gap-free table with an empty slot starts the reinsertion. */
  lemma ClearStartsReinsertion(t: Table, hole: nat, key: Key) returns (len: nat)
    requires hole < |t| && NoGaps(t) && Distinct(t) && t[hole] == Some(key) && |KeysOf(t)| < |t|
    ensures Reinserting(t[hole := None], hole, 1, len)
    ensures KeysOf(t[hole := None]) == KeysOf(t) - {key}
  {
    var e := EmptySlot(t);
    var u := t[hole := None];
    assert u[e].None? && 1 <= Dist(hole, e, |t|);
    len := ClusterLength(u, hole, 1);
    MovedKeys(t, hole, hole);
    forall p, q | 0 <= p < |t| && 0 <= q < |t| && Gap(u, p, q)
      ensures Dist(hole, q, |t|) < 1 <= Dist(hole, p, |t|) < len
    {
      GapAfterClearing(t, hole, len, p, q);
    }
  }

  lemma EmptySlot(t: Table) returns (e: nat)
    requires Distinct(t) && |KeysOf(t)| < |t|
    ensures e < |t| && t[e].None?
  {
    if forall i :: 0 <= i < |t| ==> t[i].Some? {
      FullTableCount(t);
      assert false;
    }
    e :| 0 <= e < |t| && t[e].None?;
  }

  /** The displaced key lands on its own probe path, at or before the slot it left. */
  lemma ReinsertionSlot(t: Table, hole: nat, c: nat, len: nat, cursor: nat)
    requires Reinserting(t, hole, c, len) && c < len
    requires cursor == At(hole, c, |t|)
    ensures t[cursor].Some?
    ensures var r := Probe(t[cursor := None], t[cursor].value, 0);
      r.Some? && t[cursor := None][r.value].None?
      && (r.value == cursor || Dist(hole, r.value, |t|) < c)
  {
    var u := t[cursor := None];
    var r := Probe(u, t[cursor].value, 0);
    assert u[cursor].None?;
    hide Distinct, Gap, Probe, Home;
    if r.value != cursor {
      assert t[r.value] == u[r.value];
      assert t[r.value].None?;
    }
  }

  /** A path that crosses the slot just vacated belongs to a key still awaiting reinsertion. */
  lemma CrossingIsUnprocessed(t: Table, hole: nat, c: nat, len: nat, cursor: nat, p: nat)
    requires Reinserting(t, hole, c, len) && c < len
    requires cursor == At(hole, c, |t|)
    requires p < |t| && p != cursor && t[p].Some?
    requires Dist(Home(t[p].value, |t|), cursor, |t|) < Dist(Home(t[p].value, |t|), p, |t|)
    ensures c + 1 <= Dist(hole, p, |t|) < len
  {
    var e := At(hole, len, |t|);
    assert !Gap(t, p, e);
  }

  /** Gaps that remain after one reinsertion lie behind keys that still await theirs. */
  lemma GapAfterReinsertion(t: Table, hole: nat, c: nat, len: nat, cursor: nat, to: nat, p: nat, q: nat)
    requires Reinserting(t, hole, c, len) && c < len
    requires cursor == At(hole, c, |t|) && t[cursor].Some?
    requires Probe(t[cursor := None], t[cursor].value, 0) == Some(to) && t[cursor := None][to].None?
    requires p < |t| && q < |t| && Gap(t[cursor := None][to := t[cursor]], p, q)
    ensures Dist(hole, q, |t|) < c + 1 <= Dist(hole, p, |t|) < len
  {
    var u := t[cursor := None];
    var v := u[to := t[cursor]];
    assert u[q].None?;
    if p != to {
      assert v[p] == t[p] && p != cursor;
      if q == cursor {
        CrossingIsUnprocessed(t, hole, c, len, cursor, p);
      } else {
        assert Gap(t, p, q);
      }
    }
  }

  /** Taking one displaced key out and inserting it again advances the reinsertion. */
  lemma ReinsertAdvances(t: Table, hole: nat, c: nat, len: nat, cursor: nat)
    requires Reinserting(t, hole, c, len) && c < len
    requires cursor == At(hole, c, |t|)
    ensures t[cursor].Some?
    ensures Reinserting(Placed(t[cursor := None], t[cursor].value), hole, c + 1, len)
    ensures KeysOf(Placed(t[cursor := None], t[cursor].value)) == KeysOf(t)
    ensures Placed(t[cursor := None], t[cursor].value) != t[cursor := None]
    ensures cursor != hole
  {
    ReinsertionSlot(t, hole, c, len, cursor);
    var u := t[cursor := None];
    var to := Probe(u, t[cursor].value, 0).value;
    MovedKeys(t, cursor, to);
    var v := u[to := t[cursor]];
    forall p, q | 0 <= p < |t| && 0 <= q < |t| && Gap(v, p, q)
      ensures Dist(hole, q, |t|) < c + 1 <= Dist(hole, p, |t|) < len
    {
      GapAfterReinsertion(t, hole, c, len, cursor, to, p, q);
    }
  }

  /** An occupied cursor is still inside the cluster. */
  lemma StillReinserting(t: Table, hole: nat, c: nat, len: nat, cursor: nat)
    requires Reinserting(t, hole, c, len) && cursor == At(hole, c, |t|) && t[cursor].Some?
    ensures c < len && 0 < |KeysOf(t)|
  {
    assert t[cursor].value in KeysOf(t);
  }

  lemma AtNext(a: nat, d: nat, n: nat)
    requires a < n && d + 1 < n
    ensures At(a, d + 1, n) == Next(At(a, d, n), n)
  {
  }

  /** Once nothing awaits reinsertion the table is gap-free again. */
  lemma ReinsertionDone(t: Table, hole: nat, c: nat, len: nat, cursor: nat)
    requires Reinserting(t, hole, c, len) && cursor == At(hole, c, |t|) && t[cursor].None?
    ensures c == len && NoGaps(t)
  {
    assert Dist(hole, cursor, |t|) == c;
  }

  function PowerOfTwo(k: nat): nat {
    if k == 0 then 1 else 2 * PowerOfTwo(k - 1)
  }

  lemma {:induction false} NextPowerFits(n: nat, p: nat, k: nat)
    requires 1 <= p <= U64_MAX && (p == 1 || p / 2 < n)
    requires p * PowerOfTwo(k) == 0x8000_0000_0000_0000
    ensures NextPowerOfTwo(n, p).Some? <==> n <= 0x8000_0000_0000_0000
    decreases k
  {
    if p < n && k > 0 {
      assert (2 * p) * PowerOfTwo(k - 1) == p * (2 * PowerOfTwo(k - 1));
      assert PowerOfTwo(k - 1) >= 1 by { PowerPositive(k - 1); }
      assert 2 * p <= 0x8000_0000_0000_0000;
      NextPowerFits(n, 2 * p, k - 1);
    } else if n <= p && k > 0 {
      PowerPositive(k);
      assert p <= p * PowerOfTwo(k);
    }
  }

  lemma {:induction false} PowerPositive(k: nat)
    ensures PowerOfTwo(k) >= 1
  {
    if k > 0 { PowerPositive(k - 1); }
  }

  /** The table keeps a spare slot beside its bound exactly while doubling the bound fits the
      machine word; past that the fallback allocates no spare slot. */
  lemma CapacityHeadroom(maxKeys: nat)
    ensures maxKeys < CapacityFor(maxKeys) <==> maxKeys <= 0x4000_0000_0000_0000
    ensures maxKeys <= 0x4000_0000_0000_0000 ==> 2 * maxKeys <= CapacityFor(maxKeys)
  {
    assert PowerOfTwo(63) == 0x8000_0000_0000_0000 by {
      assert PowerOfTwo(16) == 0x1_0000;
      PowerSum(16, 16);
      PowerSum(32, 31);
      assert PowerOfTwo(31) == 0x8000_0000 by { PowerSum(16, 15); assert PowerOfTwo(15) == 0x8000; }
    }
    NextPowerFits(2 * maxKeys, 1, 63);
  }

  lemma {:induction false} PowerSum(a: nat, b: nat)
    ensures PowerOfTwo(a + b) == PowerOfTwo(a) * PowerOfTwo(b)
  {
    if b > 0 {
      PowerSum(a, b - 1);
    }
  }

  /** The mutable set of active match keys. */
  class ActiveKeySet {
    const slots: array<Option<Key>>
    var len: nat
    /** The set this table stands for. */
    ghost var keys: set<Key>

    ghost predicate Valid()
      reads this, slots
    {
      && 0 < slots.Length
      && NoGaps(slots[..]) && Distinct(slots[..])
      && keys == KeysOf(slots[..]) && len == |keys|
    }

    constructor (maxKeys: nat)
      ensures Valid() && fresh(slots)
      ensures keys == {} && slots.Length == CapacityFor(maxKeys)
    {
      slots := new Option<Key>[CapacityFor(maxKeys)](_ => None);
      len, keys := 0, {};
    }

    method Find(key: Key) returns (found: Option<nat>)
      requires 0 < slots.Length
      ensures found == if Probe(slots[..], key, 0).Some? && slots[Probe(slots[..], key, 0).value] == Some(key)
                       then Probe(slots[..], key, 0) else None
    {
      var index := Home(key, slots.Length);
      for step := 0 to slots.Length
        invariant index < slots.Length
        invariant step < slots.Length ==> index == At(Home(key, slots.Length), step, slots.Length)
        invariant Probe(slots[..], key, 0) == Probe(slots[..], key, step)
      {
        if slots[index] == Some(key) {
          return Some(index);
        }
        if slots[index].None? {
          return None;
        }
        index := Next(index, slots.Length);
      }
      return None;
    }

    method Contains(key: Key) returns (found: bool)
      requires Valid()
      ensures found <==> key in keys
    {
      var slot := Find(key);
      ProbeDecidesMembership(slots[..], key);
      return slot.Some?;
    }

    method Insert(key: Key) returns (inserted: bool)
      requires 0 < slots.Length
      modifies this`len, slots
      ensures slots[..] == Placed(old(slots[..]), key)
      ensures inserted <==> slots[..] != old(slots[..])
      ensures len == if inserted then old(len) + 1 else old(len)
    {
      var index := Home(key, slots.Length);
      for step := 0 to slots.Length
        invariant index < slots.Length && slots[..] == old(slots[..]) && len == old(len)
        invariant step < slots.Length ==> index == At(Home(key, slots.Length), step, slots.Length)
        invariant Probe(old(slots[..]), key, 0) == Probe(old(slots[..]), key, step)
      {
        if slots[index] == Some(key) {
          return false;
        }
        if slots[index].None? {
          slots[index] := Some(key);
          len := len + 1;
          assert slots[index] != old(slots[..])[index];
          return true;
        }
        index := Next(index, slots.Length);
      }
      return false;
    }

    /** Insertion seen as a set operation. */
    method InsertKey(key: Key) returns (inserted: bool)
      requires Valid() && len < slots.Length
      modifies this, slots
      ensures Valid() && keys == old(keys) + {key}
      ensures inserted <==> key !in old(keys)
    {
      PlacedAddsOneKey(slots[..], key);
      inserted := Insert(key);
      keys := keys + {key};
    }

    /** Takes the key out of one slot and inserts it again from its home. */
    method Reinsert(cursor: nat) returns (inserted: bool)
      requires cursor < slots.Length && slots[cursor].Some? && 0 < len
      modifies this`len, slots
      ensures slots[..] == Placed(old(slots[..])[cursor := None], old(slots[..])[cursor].value)
      ensures inserted <==> slots[..] != old(slots[..])[cursor := None]
      ensures len == if inserted then old(len) else old(len) - 1
    {
      var displaced := slots[cursor].value;
      slots[cursor] := None;
      len := len - 1;
      assert slots[..] == old(slots[..])[cursor := None];
      inserted := Insert(displaced);
    }

    /** Reinserts the rest of the cluster after a cleared slot. */
    method ReinsertCluster(hole: nat, ghost size: nat) returns (complete: bool)
      requires Reinserting(slots[..], hole, 1, size)
      requires len == |KeysOf(slots[..])|
      modifies this`len, slots
      ensures 0 < slots.Length && NoGaps(slots[..]) && Distinct(slots[..])
      ensures KeysOf(slots[..]) == old(KeysOf(slots[..])) && len == |KeysOf(slots[..])|
      ensures complete
    {
      var cursor := Next(hole, slots.Length);
      ghost var c := 1;
      assert cursor == At(hole, 1, slots.Length);
      hide Reinserting, KeysOf, NoGaps, Distinct, Placed, At;
      while slots[cursor].Some?
        invariant hole < slots.Length && cursor < slots.Length && c <= size < slots.Length
        invariant cursor == At(hole, c, slots.Length)
        invariant Reinserting(slots[..], hole, c, size)
        invariant KeysOf(slots[..]) == old(KeysOf(slots[..]))
        invariant len == |KeysOf(slots[..])|
        decreases size - c
      {
        ghost var before := slots[..];
        StillReinserting(before, hole, c, size, cursor);
        ReinsertAdvances(before, hole, c, size, cursor);
        var inserted := Reinsert(cursor);
        assert inserted;
        if !inserted {
          return false;
        }
        AtNext(hole, c, slots.Length);
        cursor := Next(cursor, slots.Length);
        c := c + 1;
      }
      assert slots[..][cursor].None?;
      ReinsertionDone(slots[..], hole, c, size, cursor);
      return true;
    }

    method Remove(key: Key) returns (removed: bool)
      requires Valid() && len < slots.Length
      modifies this, slots
      ensures Valid() && keys == old(keys) - {key}
      ensures removed <==> key in old(keys)
    {
      ghost var start := slots[..];
      ProbeDecidesMembership(start, key);
      var found := Find(key);
      if found.None? {
        return false;
      }
      var hole := found.value;
      ghost var size := ClearStartsReinsertion(start, hole, key);
      slots[hole] := None;
      len := len - 1;
      assert slots[..] == start[hole := None];
      keys := keys - {key};
      removed := ReinsertCluster(hole, size);
    }
  }
}
